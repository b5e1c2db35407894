/** Which operations the retention runs come to, over any number of runs. */
module RetentionFairness {
  import opened Text
  import opened RetentionCursor

  // ---------- positions ----------

  /** Where the cursor stands after so many whole runs over n names. */
  function PositionAfter(n: nat, p: nat, runs: nat): (q: nat)
    ensures p <= n ==> q <= n
    ensures runs > 0 && n > 0 ==> 0 < q <= n
  {
    if runs == 0 then p else End(n, PositionAfter(n, p, runs - 1))
  }

  predicate Covers(n: nat, p: nat, runs: nat, i: nat) {
    var q := PositionAfter(n, p, runs);
    Start(n, q) <= i < End(n, q)
  }

  function FairWindow(n: nat): nat {
    (n + BATCH - 1) / BATCH + 1
  }

  /** The runs it takes to come to the end. */
  function ToTheEnd(n: nat, p: nat): nat
    requires p <= n
  {
    (n - p + BATCH - 1) / BATCH
  }

  lemma {:induction false} BeforeTheEnd(n: nat, p: nat, runs: nat)
    requires p + BATCH * runs < n
    ensures PositionAfter(n, p, runs) == p + BATCH * runs
  {
    if runs > 0 {
      BeforeTheEnd(n, p, runs - 1);
    }
  }

  lemma {:induction false} FromTheEnd(n: nat, p: nat, first: nat, runs: nat)
    requires PositionAfter(n, p, first) == n && BATCH * runs < n
    ensures Start(n, PositionAfter(n, p, first + runs)) == BATCH * runs
  {
    if runs > 0 {
      FromTheEnd(n, p, first, runs - 1);
    }
  }

  lemma ReachesTheEnd(n: nat, p: nat)
    requires p <= n
    ensures PositionAfter(n, p, ToTheEnd(n, p)) == n
  {
    if p < n {
      BeforeTheEnd(n, p, ToTheEnd(n, p) - 1);
    }
  }

  lemma StartOf(n: nat, p: nat, runs: nat)
    requires p <= n
    ensures runs < ToTheEnd(n, p) ==> Start(n, PositionAfter(n, p, runs)) == p + BATCH * runs
    ensures runs >= ToTheEnd(n, p) && BATCH * (runs - ToTheEnd(n, p)) < n ==>
              Start(n, PositionAfter(n, p, runs)) == BATCH * (runs - ToTheEnd(n, p))
  {
    var m := ToTheEnd(n, p);
    if runs < m {
      BeforeTheEnd(n, p, runs);
    } else if BATCH * (runs - m) < n {
      ReachesTheEnd(n, p);
      FromTheEnd(n, p, m, runs - m);
    }
  }

  /** The first run that comes to name number i. */
  function FirstRun(n: nat, p: nat, i: nat): nat
    requires p <= n && i < n
  {
    if i >= p then (i - p) / BATCH else ToTheEnd(n, p) + i / BATCH
  }

  lemma CoveredInTime(n: nat, p: nat, i: nat)
    requires p <= n && i < n
    ensures FirstRun(n, p, i) < FairWindow(n) && Covers(n, p, FirstRun(n, p, i), i)
  {
    StartOf(n, p, FirstRun(n, p, i));
  }

  lemma NotCoveredBefore(n: nat, p: nat, i: nat, runs: nat)
    requires p <= n && i < n && runs < FirstRun(n, p, i)
    ensures !Covers(n, p, runs, i)
  {
    StartOf(n, p, runs);
  }

  /** The name whose turn comes last. */
  function LastTurn(n: nat, p: nat): nat
    requires p <= n && n > 0
  {
    if p == 0 then n - 1 else p - 1
  }

  lemma LastIsLast(n: nat, p: nat, i: nat)
    requires p <= n && i < n
    ensures var last := LastTurn(n, p);
            FirstRun(n, p, i) <= FirstRun(n, p, last)
                && (FirstRun(n, p, i) == FirstRun(n, p, last) && i != last ==> i < last)
  {}

  // ---------- one run, from a position ----------

  predicate At(names: seq<string>, file: Option<string>, p: nat) {
    ReadCursor(file).Some? && Position(names, ReadCursor(file).value) == p
  }

  predicate BatchSurvives(names: seq<string>, fate: string -> Fate, p: nat) {
    forall i | Start(|names|, p) <= i < End(|names|, p) :: fate(names[i]) != Uncaught
  }

  lemma RunAt(names: seq<string>, fate: string -> Fate, file: Option<string>, p: nat)
    requires At(names, file, p) && names != []
    ensures var batch := names[Start(|names|, p)..End(|names|, p)];
            && RunOnce(names, fate, file).visited == Visited(batch, fate)
            && RunOnce(names, fate, file).file == if BatchSurvives(names, fate, p)
               then CursorFile(names[End(|names|, p) - 1]) else file
  {
    hide ReadCursor, Visited, Position;
    var lo, hi := Start(|names|, p), End(|names|, p);
    var batch := names[lo..hi];
    assert Candidates(names, ReadCursor(file).value) == batch && batch[|batch| - 1] == names[hi - 1];
    assert forall i | 0 <= i < |batch| :: batch[i] == names[lo + i];
    if Survives(batch, fate) {
      forall i | lo <= i < hi ensures fate(names[i]) != Uncaught {
        assert names[i] == batch[i - lo];
      }
    }
  }

  /** Name number i is visited if nothing before it in the batch ends the run. */
  lemma VisitedUpTo(names: seq<string>, fate: string -> Fate, lo: nat, hi: nat, i: nat)
    requires lo <= i < hi <= |names| && forall k | lo <= k < i :: fate(names[k]) != Uncaught
    ensures names[i] in Visited(names[lo..hi], fate)
  {
    hide Visited;
    var batch := names[lo..hi];
    var head := batch[..i - lo];
    assert forall k | 0 <= k < |head| :: head[k] == names[lo + k];
    VisitedPrefix(batch, i - lo, fate);
    assert batch[i - lo..][0] == names[i];
    FirstIsVisited(batch[i - lo..], fate);
  }

  lemma FirstIsVisited(candidates: seq<string>, fate: string -> Fate)
    requires candidates != []
    ensures candidates[0] in Visited(candidates, fate)
  {}

  lemma {:induction false} VisitedAtMost(candidates: seq<string>, fate: string -> Fate, k: nat, x: string)
    requires k < |candidates| && fate(candidates[k]) == Uncaught && x in Visited(candidates, fate)
    ensures x in candidates[..k + 1]
  {
    if fate(candidates[0]) == Uncaught || x == candidates[0] {
      assert candidates[..k + 1][0] == candidates[0];
    } else {
      VisitedAtMost(candidates[1..], fate, k - 1, x);
      assert candidates[1..][..k] == candidates[..k + 1][1..];
    }
  }

  lemma {:induction false} VisitedIsPart(candidates: seq<string>, fate: string -> Fate, x: string)
    requires x in Visited(candidates, fate)
    ensures x in candidates
  {
    if fate(candidates[0]) != Uncaught && x != candidates[0] {
      VisitedIsPart(candidates[1..], fate, x);
    }
  }

  // ---------- the schedule ----------

  ghost function FileAfter(names: seq<string>, fates: seq<string -> Fate>, file: Option<string>): Option<string> {
    if fates == [] then file
    else RunOnce(names, fates[|fates| - 1], FileAfter(names, fates[..|fates| - 1], file)).file
  }

  /** What run number `r`, counted from zero, visits. */
  ghost function VisitedIn(names: seq<string>, fates: seq<string -> Fate>, file: Option<string>, r: nat): seq<string>
    requires r < |fates|
  {
    RunOnce(names, fates[r], FileAfter(names, fates[..r], file)).visited
  }

  /** After a run that ended with name number e - 1 the next one starts with number e. */
  predicate GoesOn(names: seq<string>, e: nat)
    requires 0 < e <= |names|
  {
    var name := names[e - 1];
    Short(name) && !Less(Strip(name), name) && (e < |names| ==> Less(Strip(name), names[e]))
  }

  lemma GoesOnExactly(names: seq<string>, e: nat)
    requires Ascending(names) && 0 < e <= |names|
    ensures At(names, CursorFile(names[e - 1]), e) <==> GoesOn(names, e)
  {
    CursorReads(names[e - 1]);
    hide ReadCursor, Strip, Short, Position;
    var cursor := Strip(names[e - 1]);
    AfterCursor(names, cursor, e - 1);
    if e < |names| {
      AfterCursor(names, cursor, e);
    }
  }

  lemma FaithfulGoesOn(names: seq<string>, e: nat)
    requires Ascending(names) && 0 < e <= |names| && Faithful(names[e - 1])
    ensures GoesOn(names, e)
  {
    StripKeeps(names[e - 1]);
    LessIrreflexive(names[e - 1]);
  }

  predicate Keeps(names: seq<string>, p: nat, runs: nat)
    requires names != []
  {
    forall r | 1 <= r <= runs :: GoesOn(names, PositionAfter(|names|, p, r))
  }

  ghost predicate BatchesSurvive(names: seq<string>, fates: seq<string -> Fate>, p: nat) {
    forall r | 0 <= r < |fates| :: BatchSurvives(names, fates[r], PositionAfter(|names|, p, r))
  }

  lemma {:induction false} KeptPositions(names: seq<string>, fates: seq<string -> Fate>, file: Option<string>, p: nat)
    requires Ascending(names) && names != [] && At(names, file, p) && BatchesSurvive(names, fates, p)
             && Keeps(names, p, |fates|)
    ensures At(names, FileAfter(names, fates, file), PositionAfter(|names|, p, |fates|))
    decreases |fates|
  {
    hide At, BatchSurvives, RunOnce, GoesOn;
    if fates != [] {
      var before, last := fates[..|fates| - 1], fates[|fates| - 1];
      KeptPositions(names, before, file, p);
      var q := PositionAfter(|names|, p, |before|);
      RunAt(names, last, FileAfter(names, before, file), q);
      GoesOnExactly(names, End(|names|, q));
      assert GoesOn(names, PositionAfter(|names|, p, |fates|));
    }
  }

  /** Runs that no error ends go through the names in order exactly when each of them ends
      with a name after which the next run goes on. */
  lemma ScheduledExactlyWhen(names: seq<string>, fates: seq<string -> Fate>, file: Option<string>, p: nat)
    requires Ascending(names) && names != [] && At(names, file, p) && BatchesSurvive(names, fates, p)
    ensures (forall r | 0 <= r <= |fates|
            :: At(names, FileAfter(names, fates[..r], file), PositionAfter(|names|, p, r)))
            <==> Keeps(names, p, |fates|)
  {
    hide At, BatchSurvives, RunOnce, GoesOn, FileAfter, PositionAfter, Ascending;
    if Keeps(names, p, |fates|) {
      forall r | 0 <= r <= |fates| ensures At(names, FileAfter(names, fates[..r], file), PositionAfter(|names|, p, r)) {
        KeptPositions(names, fates[..r], file, p);
      }
    }
    if forall r | 0 <= r <= |fates| :: At(names, FileAfter(names, fates[..r], file), PositionAfter(|names|, p, r)) {
      forall r | 1 <= r <= |fates| ensures GoesOn(names, PositionAfter(|names|, p, r)) {
        assert At(names, FileAfter(names, fates[..r - 1], file), PositionAfter(|names|, p, r - 1));
        assert At(names, FileAfter(names, fates[..r], file), PositionAfter(|names|, p, r));
        ScheduledEnd(names, fates, file, p, r);
      }
    }
  }

  lemma ScheduledEnd(names: seq<string>, fates: seq<string -> Fate>, file: Option<string>, p: nat, r: nat)
    requires Ascending(names) && names != [] && 1 <= r <= |fates|
             && BatchSurvives(names, fates[r - 1], PositionAfter(|names|, p, r - 1))
    requires At(names, FileAfter(names, fates[..r - 1], file), PositionAfter(|names|, p, r - 1))
    requires At(names, FileAfter(names, fates[..r], file), PositionAfter(|names|, p, r))
    ensures GoesOn(names, PositionAfter(|names|, p, r))
  {
    hide At, BatchSurvives, RunOnce, GoesOn, Ascending;
    var q := PositionAfter(|names|, p, r - 1);
    assert fates[..r][..r - 1] == fates[..r - 1];
    RunAt(names, fates[r - 1], FileAfter(names, fates[..r - 1], file), q);
    GoesOnExactly(names, End(|names|, q));
  }

  // ---------- fairness ----------

  ghost predicate NoneUncaught(names: seq<string>, fates: seq<string -> Fate>) {
    forall r | 0 <= r < |fates| :: Survives(names, fates[r])
  }

  ghost predicate Reached(names: seq<string>, fates: seq<string -> Fate>, file: Option<string>, i: nat)
    requires i < |names|
  {
    exists r | 0 <= r < |fates| :: names[i] in VisitedIn(names, fates, file, r)
  }

  /** From any position each name is visited within one run more than it takes to go through
      all of them, however the operations fail, if no error ends a run. */
  lemma EveryNameIsVisited(names: seq<string>, fates: seq<string -> Fate>, file: Option<string>, p: nat, i: nat)
    requires Ascending(names) && i < |names| && At(names, file, p) && NoneUncaught(names, fates)
    requires |fates| == FairWindow(|names|) && Keeps(names, p, |fates| - 1)
    ensures Reached(names, fates, file, i)
  {
    hide GoesOn, Visited, FairWindow, RunOnce;
    AtIsWithin(names, file, p);
    hide At;
    var r := FirstRun(|names|, p, i);
    CoveredInTime(|names|, p, i);
    assert forall k | 0 <= k < r :: fates[..r][k] == fates[k];
    KeptPositions(names, fates[..r], file, p);
    var q := PositionAfter(|names|, p, r);
    RunAt(names, fates[r], FileAfter(names, fates[..r], file), q);
    VisitedUpTo(names, fates[r], Start(|names|, q), End(|names|, q), i);
    assert names[i] in VisitedIn(names, fates, file, r);
  }

  lemma AtIsWithin(names: seq<string>, file: Option<string>, p: nat)
    requires At(names, file, p)
    ensures p <= |names|
  {}

  ghost function Always(fate: string -> Fate, runs: nat): (fates: seq<string -> Fate>)
    ensures |fates| == runs && forall i | 0 <= i < runs :: fates[i] == fate
  {
    seq(runs, i => fate)
  }

  ghost predicate VisitsAll(names: seq<string>, fates: seq<string -> Fate>, file: Option<string>) {
    forall i | 0 <= i < |names| :: Reached(names, fates, file, i)
  }

  /** Only the name whose turn comes last may end a run. */
  predicate OnlyLastUncaught(names: seq<string>, fate: string -> Fate, p: nat)
    requires p <= |names|
  {
    forall i | 0 <= i < |names| && fate(names[i]) == Uncaught :: i == LastTurn(|names|, p)
  }

  lemma VisitedInTurn(names: seq<string>, fate: string -> Fate, file: Option<string>, p: nat, i: nat) returns (r: nat)
    requires Ascending(names) && i < |names| && At(names, file, p) && p <= |names| && OnlyLastUncaught(names, fate, p)
    requires Keeps(names, p, FairWindow(|names|) - 1)
    ensures r < FairWindow(|names|) && names[i] in VisitedIn(names, Always(fate, FairWindow(|names|)), file, r)
  {
    hide GoesOn, Visited, FairWindow, RunOnce, At, FirstRun, Covers;
    var n, fates := |names|, Always(fate, FairWindow(|names|));
    var last := LastTurn(n, p);
    r := FirstRun(n, p, i);
    CoveredInTime(n, p, i);
    LastIsLast(n, p, i);
    forall k | 0 <= k < r ensures BatchSurvives(names, fates[..r][k], PositionAfter(n, p, k)) {
      NotCoveredBefore(n, p, last, k);
      CoversMeans(n, p, k, last);
    }
    KeptPositions(names, fates[..r], file, p);
    var q := PositionAfter(n, p, r);
    RunAt(names, fate, FileAfter(names, fates[..r], file), q);
    CoversMeans(n, p, r, i);
    if r < FirstRun(n, p, last) {
      NotCoveredBefore(n, p, last, r);
      CoversMeans(n, p, r, last);
    }
    VisitedUpTo(names, fate, Start(n, q), End(n, q), i);
  }

  lemma CoversMeans(n: nat, p: nat, r: nat, i: nat)
    ensures var q := PositionAfter(n, p, r); Covers(n, p, r, i) <==> Start(n, q) <= i < End(n, q)
  {}

  /** Until an error ends a run the position follows the schedule; from then on it stays. */
  lemma {:induction false} NoFurther(names: seq<string>, fate: string -> Fate, file: Option<string>, p: nat, j: nat,
                                     runs: nat) returns (q: nat)
    requires Ascending(names) && j < |names| && At(names, file, p) && p <= |names| && fate(names[j]) == Uncaught
    requires Keeps(names, p, FairWindow(|names|) - 1)
    ensures q <= FirstRun(|names|, p, j)
    ensures At(names, FileAfter(names, Always(fate, runs), file), PositionAfter(|names|, p, q))
    decreases runs
  {
    hide GoesOn, FairWindow, RunOnce, At, FirstRun, Covers;
    if runs == 0 {
      q := 0;
      assert Always(fate, 0) == [];
    } else {
      var n := |names|;
      var before := NoFurther(names, fate, file, p, j, runs - 1);
      assert Always(fate, runs)[..runs - 1] == Always(fate, runs - 1);
      var f, at := FileAfter(names, Always(fate, runs - 1), file), PositionAfter(n, p, before);
      RunAt(names, fate, f, at);
      CoveredInTime(n, p, j);
      if BatchSurvives(names, fate, at) {
        q := before + 1;
        CoversMeans(n, p, before, j);
        assert GoesOn(names, PositionAfter(n, p, q));
        GoesOnExactly(names, End(n, at));
      } else {
        q := before;
      }
    }
  }

  lemma DistinctNames(names: seq<string>, i: nat, j: nat)
    requires Ascending(names) && i < |names| && j < |names| && names[i] == names[j]
    ensures i == j
  {
    LessIrreflexive(names[i]);
  }

  /** An error that ends a run before the last name's turn keeps that name from being visited. */
  lemma LastIsMissed(names: seq<string>, fate: string -> Fate, file: Option<string>, p: nat, j: nat, r: nat, runs: nat)
    requires Ascending(names) && j < |names| && At(names, file, p) && p <= |names| && fate(names[j]) == Uncaught
    requires Keeps(names, p, FairWindow(|names|) - 1) && j != LastTurn(|names|, p) && r < runs
    ensures names[LastTurn(|names|, p)] !in VisitedIn(names, Always(fate, runs), file, r)
  {
    hide GoesOn, FairWindow, RunOnce, At, FirstRun, Covers, Visited;
    var n, last, fates := |names|, LastTurn(|names|, p), Always(fate, runs);
    assert fates[..r] == Always(fate, r);
    var q := NoFurther(names, fate, file, p, j, r);
    var f, at := FileAfter(names, fates[..r], file), PositionAfter(n, p, q);
    RunAt(names, fate, f, at);
    LastIsLast(n, p, j);
    CoveredInTime(n, p, j);
    CoversMeans(n, p, q, j);
    CoversMeans(n, p, q, last);
    if q < FirstRun(n, p, last) {
      NotCoveredBefore(n, p, last, q);
    }
    NotThere(names, fate, Start(n, at), End(n, at), j, last);
  }

  lemma NotThere(names: seq<string>, fate: string -> Fate, lo: nat, hi: nat, j: nat, last: nat)
    requires Ascending(names) && lo <= hi <= |names| && last < |names|
    requires lo <= last < hi ==> lo <= j < last && fate(names[j]) == Uncaught
    ensures names[last] !in Visited(names[lo..hi], fate)
  {
    hide Visited;
    var batch := names[lo..hi];
    if names[last] in Visited(batch, fate) {
      VisitedIsPart(batch, fate, names[last]);
      var k :| 0 <= k < |batch| && batch[k] == names[last];
      DistinctNames(names, lo + k, last);
      assert batch[j - lo] == names[j];
      VisitedAtMost(batch, fate, j - lo, names[last]);
      var k' :| 0 <= k' < j - lo + 1 && batch[k'] == names[last];
      DistinctNames(names, lo + k', last);
      assert false;
    }
  }

  /** Operations that always end the same way are all visited in time exactly when none ends
      the run, or only the one whose turn comes last from this cursor does. */
  lemma FairExactlyWhen(names: seq<string>, fate: string -> Fate, file: Option<string>, p: nat)
    requires Ascending(names) && names != [] && At(names, file, p) && p <= |names|
             && Keeps(names, p, FairWindow(|names|) - 1)
    ensures VisitsAll(names, Always(fate, FairWindow(|names|)), file) <==> OnlyLastUncaught(names, fate, p)
  {
    hide GoesOn, FairWindow, RunOnce, At, Ascending, VisitedIn;
    var fates := Always(fate, FairWindow(|names|));
    if OnlyLastUncaught(names, fate, p) {
      forall i | 0 <= i < |names| ensures Reached(names, fates, file, i) {
        var r := VisitedInTurn(names, fate, file, p, i);
      }
    } else {
      var j :| 0 <= j < |names| && fate(names[j]) == Uncaught && j != LastTurn(|names|, p);
      forall r | 0 <= r < |fates| ensures names[LastTurn(|names|, p)] !in VisitedIn(names, fates, file, r) {
        LastIsMissed(names, fate, file, p, j, r, |fates|);
      }
      assert !Reached(names, fates, file, LastTurn(|names|, p));
    }
  }

  /** An operation whose error ends the run, next after the cursor, is the only one that any
      later run visits. */
  lemma {:induction false} UncaughtBlocks(names: seq<string>, fate: string -> Fate, file: Option<string>, p: nat,
                                          runs: nat)
    requires names != [] && At(names, file, p) && fate(names[Start(|names|, p)]) == Uncaught
    ensures FileAfter(names, Always(fate, runs), file) == file
    ensures forall r | 0 <= r < runs :: VisitedIn(names, Always(fate, runs), file, r) == [names[Start(|names|, p)]]
  {
    hide RunOnce, At, End;
    RunAt(names, fate, file, p);
    var fates := Always(fate, runs);
    if runs > 0 {
      UncaughtBlocks(names, fate, file, p, runs - 1);
      assert fates[..runs - 1] == Always(fate, runs - 1);
    }
    forall r | 0 <= r < runs ensures VisitedIn(names, fates, file, r) == [names[Start(|names|, p)]] {
      if r < runs - 1 {
        UncaughtBlocks(names, fate, file, p, r);
      }
      assert fates[..r] == Always(fate, r);
    }
  }

  // ---------- names that do not come back ----------

  /** An unreadable cursor ends every run before it visits anything. */
  lemma {:induction false} UnreadableStays(names: seq<string>, fates: seq<string -> Fate>, file: Option<string>)
    requires ReadCursor(file).None?
    ensures FileAfter(names, fates, file) == file
    ensures forall r | 0 <= r < |fates| :: VisitedIn(names, fates, file, r) == []
    decreases |fates|
  {
    hide ReadCursor;
    if fates != [] {
      UnreadableStays(names, fates[..|fates| - 1], file);
    }
    forall r | 0 <= r < |fates| ensures VisitedIn(names, fates, file, r) == [] {
      UnreadableStays(names, fates[..r], file);
    }
  }

  predicate EndsTrimmed(names: seq<string>, p: nat, runs: nat)
    requires names != []
  {
    forall r | 1 <= r <= runs :: Trimmed(names[PositionAfter(|names|, p, r) - 1])
  }

  predicate EndsShort(names: seq<string>, p: nat, runs: nat)
    requires names != []
  {
    forall r | 1 <= r <= runs :: Short(names[PositionAfter(|names|, p, r) - 1])
  }

  /** For names without white space at their ends, the cursor is readable after some runs
      exactly when each of them ended with a name shorter than 128 bytes. */
  lemma {:induction false} ReadableExactlyWhen(names: seq<string>, fates: seq<string -> Fate>, file: Option<string>,
                                               p: nat)
    requires Ascending(names) && names != [] && At(names, file, p) && BatchesSurvive(names, fates, p)
             && EndsTrimmed(names, p, |fates|)
    ensures ReadCursor(FileAfter(names, fates, file)).Some? <==> EndsShort(names, p, |fates|)
    decreases |fates|
  {
    hide At, BatchSurvives, RunOnce, GoesOn, ReadCursor, Short, Trimmed;
    if fates == [] {
      ReadableAt(names, file, p);
    } else {
      var before, last := fates[..|fates| - 1], fates[|fates| - 1];
      ReadableExactlyWhen(names, before, file, p);
      EndsShortNext(names, p, |before|);
      hide EndsShort;
      if EndsShort(names, p, |before|) {
        ReadableNext(names, before, last, file, p);
      } else {
        OneMore(names, last, FileAfter(names, before, file));
        UnreadableStays(names, [last], FileAfter(names, before, file));
      }
    }
  }

  lemma ReadableNext(names: seq<string>, fates: seq<string -> Fate>, last: string -> Fate, file: Option<string>, p: nat)
    requires Ascending(names) && names != [] && At(names, file, p) && BatchesSurvive(names, fates, p)
    requires EndsTrimmed(names, p, |fates|) && EndsShort(names, p, |fates|)
    requires BatchSurvives(names, last, PositionAfter(|names|, p, |fates|))
    ensures ReadCursor(RunOnce(names, last, FileAfter(names, fates, file)).file).Some?
            <==> Short(names[PositionAfter(|names|, p, |fates| + 1) - 1])
  {
    hide At, BatchSurvives, RunOnce, GoesOn, ReadCursor, Short, Trimmed, EndsShort, EndsTrimmed, BatchesSurvive;
    forall r | 1 <= r <= |fates| ensures GoesOn(names, PositionAfter(|names|, p, r)) {
      ShortEnd(names, p, |fates|, r);
      FaithfulGoesOn(names, PositionAfter(|names|, p, r));
    }
    KeptPositions(names, fates, file, p);
    var q := PositionAfter(|names|, p, |fates|);
    RunAt(names, last, FileAfter(names, fates, file), q);
    CursorReads(names[End(|names|, q) - 1]);
  }

  lemma EndsShortNext(names: seq<string>, p: nat, runs: nat)
    requires names != []
    ensures EndsShort(names, p, runs + 1)
            <==> EndsShort(names, p, runs) && Short(names[PositionAfter(|names|, p, runs + 1) - 1])
  {
    hide Short, PositionAfter;
  }

  lemma ShortEnd(names: seq<string>, p: nat, runs: nat, r: nat)
    requires names != [] && EndsShort(names, p, runs) && EndsTrimmed(names, p, runs) && 1 <= r <= runs
    ensures Faithful(names[PositionAfter(|names|, p, r) - 1])
  {
    hide Short, Trimmed, PositionAfter;
  }

  lemma ReadableAt(names: seq<string>, file: Option<string>, p: nat)
    requires At(names, file, p)
    ensures ReadCursor(file).Some?
  {}

  /** A run that ends with a name of 128 bytes or more is the last one to visit anything. */
  lemma {:induction false} LongNameStops(names: seq<string>, fates: seq<string -> Fate>, file: Option<string>, p: nat)
    requires names != [] && fates != [] && At(names, file, p) && BatchSurvives(names, fates[0], p)
             && !Short(names[End(|names|, p) - 1])
    ensures FileAfter(names, fates, file) == CursorFile(names[End(|names|, p) - 1])
    ensures forall r | 1 <= r < |fates| :: VisitedIn(names, fates, file, r) == []
    decreases |fates|
  {
    hide At, BatchSurvives, RunOnce, ReadCursor, Short;
    var long := CursorFile(names[End(|names|, p) - 1]);
    CursorReads(names[End(|names|, p) - 1]);
    var before := fates[..|fates| - 1];
    if before == [] {
      RunAt(names, fates[0], file, p);
    } else {
      LongNameStops(names, before, file, p);
      UnreadableStays(names, [fates[|fates| - 1]], long);
      OneMore(names, fates[|fates| - 1], long);
    }
    forall r | 1 <= r < |fates| ensures VisitedIn(names, fates, file, r) == [] {
      LongNameStops(names, fates[..r], file, p);
      UnreadableStays(names, [fates[r]], long);
      OneMore(names, fates[r], long);
    }
  }

  lemma OneMore(names: seq<string>, fate: string -> Fate, file: Option<string>)
    ensures FileAfter(names, [fate], file) == RunOnce(names, fate, file).file
    ensures VisitedIn(names, [fate], file, 0) == RunOnce(names, fate, file).visited
  {
    hide RunOnce;
    assert [fate][..0] == [];
  }

  function LongName(): string {
    seq(CURSOR_LIMIT, i => 'a')
  }

  /** One directory with such a name: the first run visits it, no later one visits anything. */
  lemma LongNameExample(runs: nat)
    requires runs > 0
    ensures var fates := Always(name => Fine, runs);
            && VisitedIn([LongName()], fates, None, 0) == [LongName()]
            && forall r | 1 <= r < runs :: VisitedIn([LongName()], fates, None, r) == []
  {
    var names, fates := [LongName()], Always(name => Fine, runs);
    AsciiLength(LongName());
    hide Utf8Length, Strip;
    assert At(names, None, 0);
    LongNameStops(names, fates, None, 0);
    assert fates[..0] == [];
    RunAt(names, fates[0], None, 0);
    assert names[0..1] == names;
  }

  const SPACED := ["a", "b "]

  /** A name with white space at its end, read back as an earlier one: the next run starts
      with it again, and the names before it are not visited any more. */
  lemma {:induction false} TrailingSpaceRepeats(fate: string -> Fate, runs: nat)
    requires Survives(SPACED, fate)
    ensures !GoesOn(SPACED, 2)
    ensures RunOnce(SPACED, fate, None) == Turn(SPACED, CursorFile("b "))
    ensures FileAfter(SPACED, Always(fate, runs), CursorFile("b ")) == CursorFile("b ")
    ensures forall r | 0 <= r < runs :: VisitedIn(SPACED, Always(fate, runs), CursorFile("b "), r) == ["b "]
  {
    SpacedRuns(fate);
    hide GoesOn, RunOnce, CursorFile;
    var fates := Always(fate, runs);
    if runs > 0 {
      TrailingSpaceRepeats(fate, runs - 1);
      assert fates[..runs - 1] == Always(fate, runs - 1);
    }
    forall r | 0 <= r < runs ensures VisitedIn(SPACED, fates, CursorFile("b "), r) == ["b "] {
      if r < runs - 1 {
        TrailingSpaceRepeats(fate, r);
      }
      assert fates[..r] == Always(fate, r);
    }
  }

  lemma SpacedRuns(fate: string -> Fate)
    requires Survives(SPACED, fate)
    ensures !GoesOn(SPACED, 2)
    ensures RunOnce(SPACED, fate, None) == Turn(SPACED, CursorFile("b "))
    ensures RunOnce(SPACED, fate, CursorFile("b ")) == Turn(["b "], CursorFile("b "))
  {
    SpacedPositions();
    hide At, GoesOn, Position, ReadCursor, RunOnce, CursorFile;
    RunAt(SPACED, fate, None, 0);
    RunAt(SPACED, fate, CursorFile("b "), 1);
    assert SPACED[0..2] == SPACED && SPACED[1..2] == ["b "] && SPACED[..2] == SPACED && SPACED[2..] == [];
    assert ["b "][..1] == ["b "] && ["b "][1..] == [];
    NoneVisited(fate);
    hide Visited;
    VisitedPrefix(SPACED, 2, fate);
    VisitedPrefix(["b "], 1, fate);
  }

  lemma SpacedPositions()
    ensures At(SPACED, None, 0) && At(SPACED, CursorFile("b "), 1) && !GoesOn(SPACED, 2)
  {
    CursorReads("b ");
    assert "b "[..1] == "b" && Strip("b ") == "b";
    assert Utf8Length("b ") == 2;
    assert Less("b", "b ") && !Less("b", "a") && Less("", "a");
    assert SPACED[1..] == ["b "];
    assert Position(SPACED, "b") == 1;
  }

  lemma NoneVisited(fate: string -> Fate)
    ensures Visited([], fate) == []
  {}

  /** Listings of operations keep the schedule from every position. */
  lemma OperationsKeep(names: seq<string>, p: nat, runs: nat)
    requires Ascending(names) && names != [] && forall i | 0 <= i < |names| :: OperationName(names[i])
    ensures Keeps(names, p, runs)
  {
    hide GoesOn, Faithful;
    forall r | 1 <= r <= runs ensures GoesOn(names, PositionAfter(|names|, p, r)) {
      var e := PositionAfter(|names|, p, r);
      OperationNamesAreFaithful(names[e - 1]);
      FaithfulGoesOn(names, e);
    }
  }
}
