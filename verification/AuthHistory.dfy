/** The login budget told without its state: every answer follows from the calls and the
    answers before it. The limiter, with its windows, lazy sweep and bounded map, gives
    exactly these answers. */
module AuthHistory {
  import opened FixedWindow
  import opened AuthLimits

  /** What has happened: when ordinary calls came, when one got past the tests of its
      source, what was admitted, and how many admissions are not yet released. */
  datatype Past = Past(ordinary: seq<int>, passed: seq<int>, spent: seq<Admission>, inUse: nat)

  const NOTHING := Past([], [], [], 0)

  function Sources(spent: seq<Admission>): set<Source> {
    set a | a in spent :: a.source
  }

  function SourceOpening(p: Past, source: Source): Opening {
    Opened(SourceTimes(p.spent, source))
  }

  /** The source had a minute that was not over at the last sweep. A sweep comes with the
      first ordinary call a minute or more after the one before. */
  predicate IsTracked(p: Past, source: Source, sweep: Opening) {
    sweep.Since? && Running(SourceOpening(p, source), sweep.start)
  }

  function Tracked(p: Past, now: int): set<Source> {
    set s | s in Sources(p.spent) && IsTracked(p, s, Opened(p.ordinary + [now]))
  }

  predicate HasRoom(p: Past, source: Source, now: int) {
    source in Tracked(p, now) || |Tracked(p, now)| < CAPACITY
  }

  predicate SourceSpent(cfg: Config, p: Past, source: Source, now: int) {
    Used(SourceOpening(p, source), SourceTimes(p.spent, source), now) >= cfg.perSource
  }

  predicate GlobalSpent(cfg: Config, p: Past, now: int) {
    cfg.globalLimit > 0 && Used(Opened(p.passed), AllTimes(p.spent), now) >= cfg.globalLimit
  }

  predicate Passes(cfg: Config, p: Past, source: Source, now: int, emergency: bool) {
    emergency || (HasRoom(p, source, now) && !SourceSpent(cfg, p, source, now) && !GlobalSpent(cfg, p, now))
  }

  /** The answers that the past allows; there is always exactly one. */
  predicate Answers(cfg: Config, p: Past, source: Source, now: int, emergency: bool, o: Outcome) {
    match o
    case Admitted => Passes(cfg, p, source, now, emergency) && p.inUse < cfg.concurrent
    case Refused(retry, Concurrency) =>
      Passes(cfg, p, source, now, emergency) && p.inUse >= cfg.concurrent && retry == SECOND
    case Refused(retry, SourceCapacity) =>
      !emergency && !HasRoom(p, source, now) && retry == MINUTE
    case Refused(retry, SourceRate) =>
      && !emergency && HasRoom(p, source, now) && SourceSpent(cfg, p, source, now)
      && retry == Remaining(SourceOpening(p, source), now)
    case Refused(retry, GlobalRate) =>
      && !emergency && HasRoom(p, source, now) && !SourceSpent(cfg, p, source, now) && GlobalSpent(cfg, p, now)
      && retry == Remaining(Opened(p.passed), now)
  }

  /** The past after one more call with its answer. */
  function Told(p: Past, source: Source, now: nat, emergency: bool, o: Outcome): Past {
    Past(if emergency then p.ordinary else p.ordinary + [now],
         if !emergency && (o.Admitted? || o.reason in {GlobalRate, Concurrency}) then p.passed + [now] else p.passed,
         if !emergency && o.Admitted? then p.spent + [Admission(source, now)] else p.spent,
         if o.Admitted? then p.inUse + 1 else p.inUse)
  }

  /** The past of a run, from its events and its answers. */
  function PastOf(events: seq<Event>, outcomes: seq<Outcome>): Past {
    if events == [] then NOTHING
    else
      var before := events[..|events| - 1];
      match events[|events| - 1]
      case Release =>
        var p := PastOf(before, outcomes);
        p.(inUse := if p.inUse == 0 then 0 else p.inUse - 1)
      case Call(source, now, emergency) =>
        if outcomes == [] then NOTHING
        else Told(PastOf(before, outcomes[..|outcomes| - 1]), source, now, emergency, outcomes[|outcomes| - 1])
  }

  // ---------- the limiter mirrors the past ----------

  function End(o: Opening): int {
    if o.Never? then 0 else o.start + MINUTE
  }

  predicate IsWindow(w: Window, o: Opening, times: seq<int>) {
    w.until == End(o) && w.count == Within(o, times)
  }

  predicate IsSourceWindow(l: Limiter, p: Past, sweep: Opening, s: Source) {
    && (s in l.sources <==> IsTracked(p, s, sweep))
    && (s in l.sources ==> IsWindow(l.sources[s], SourceOpening(p, s), SourceTimes(p.spent, s)))
  }

  ghost predicate SourcesMirror(l: Limiter, p: Past, sweep: Opening) {
    forall s: Source :: IsSourceWindow(l, p, sweep, s)
  }

  ghost predicate Dated(p: Past, clock: nat) {
    && (forall t | t in p.ordinary :: 0 <= t <= clock)
    && (forall t | t in p.passed :: t in p.ordinary)
    && (forall a | a in p.spent :: a.at in p.passed)
  }

  ghost predicate Mirrors(l: Limiter, p: Past, clock: nat) {
    && Dated(p, clock)
    && l.active == p.inUse && l.nextSweep == End(Opened(p.ordinary))
    && IsWindow(l.global, Opened(p.passed), AllTimes(p.spent))
    && SourcesMirror(l, p, Opened(p.ordinary))
  }

  lemma {:induction false} SourceTimesAre(spent: seq<Admission>, s: Source)
    ensures forall t | t in SourceTimes(spent, s) :: exists a :: a in spent && a.at == t && a.source == s
    ensures SourceTimes(spent, s) != [] ==> s in Sources(spent)
  {
    if spent != [] {
      var last := |spent| - 1;
      SourceTimesAre(spent[..last], s);
      assert spent == spent[..last] + [spent[last]];
      forall t | t in SourceTimes(spent, s) ensures exists a :: a in spent && a.at == t && a.source == s {
        if t in SourceTimes(spent[..last], s) {
          var a :| a in spent[..last] && a.at == t && a.source == s;
          assert a in spent;
        } else {
          assert spent[last] in spent;
        }
      }
    }
  }

  lemma TimesAreDated(p: Past, clock: nat, s: Source)
    requires Dated(p, clock)
    ensures forall t | t in SourceTimes(p.spent, s) :: t in p.passed && 0 <= t <= clock
    ensures forall t | t in AllTimes(p.spent) :: t in p.passed && 0 <= t <= clock
  {
    SourceTimesAre(p.spent, s);
    forall t | t in AllTimes(p.spent) ensures t in p.passed {
      var i :| 0 <= i < |p.spent| && AllTimes(p.spent)[i] == t;
      assert p.spent[i] in p.spent;
    }
  }

  lemma OpeningIsDated(times: seq<int>, clock: nat)
    requires forall t | t in times :: 0 <= t <= clock
    ensures Opened(times).Since? ==> 0 <= Opened(times).start <= clock
  {
    if times != [] {
      OpenedCovers(times, times[0]);
    }
  }

  /** The sweep, if it is due, forgets exactly the minutes that are over. */
  lemma SweepMirrors(l: Limiter, p: Past, clock: nat, now: nat)
    requires Mirrors(l, p, clock) && clock <= now
    ensures var l', sweep := Sweep(l, now), Opened(p.ordinary + [now]);
            && SourcesMirror(l', p, sweep) && l'.nextSweep == End(sweep)
            && l'.global == l.global && l'.active == l.active
            && l'.sources.Keys == Tracked(p, now)
  {
    var l', sweep := Sweep(l, now), Opened(p.ordinary + [now]);
    OpenedPush(p.ordinary, now);
    OpeningIsDated(p.ordinary, clock);
    hide Opened, SourceTimes, Within;
    forall s: Source ensures IsSourceWindow(l', p, sweep, s) && (s in l'.sources <==> s in Tracked(p, now)) {
      assert IsSourceWindow(l, p, Opened(p.ordinary), s);
      TrackedIsKnown(p, s);
    }
  }

  lemma TrackedIsKnown(p: Past, s: Source)
    ensures SourceOpening(p, s).Since? ==> s in Sources(p.spent)
  {
    SourceTimesAre(p.spent, s);
  }

  /** What a call meets is what the past says is used and left. */
  lemma MeetsUsed(w: Window, o: Opening, times: seq<int>, now: nat)
    requires IsWindow(w, o, times)
    ensures Renew(w, now).count == Used(o, times, now) && Renew(w, now).until - now == Remaining(o, now)
  {}

  lemma MeetsSource(l: Limiter, p: Past, sweep: Opening, s: Source, now: nat)
    requires IsSourceWindow(l, p, sweep, s) && sweep.Since? && sweep.start <= now
    ensures Met(l, s, now).count == Used(SourceOpening(p, s), SourceTimes(p.spent, s), now)
    ensures Met(l, s, now).until - now == Remaining(SourceOpening(p, s), now)
  {}

  /** The tests after the sweep, in their order, against what the past says. */
  lemma AnswersAfterSweep(cfg: Config, swept: Limiter, p: Past, source: Source, now: nat)
    requires swept.sources.Keys == Tracked(p, now) && swept.active == p.inUse
    requires (source in swept.sources <==> source in Tracked(p, now))
    requires Met(swept, source, now).count == Used(SourceOpening(p, source), SourceTimes(p.spent, source), now)
    requires Met(swept, source, now).until - now == Remaining(SourceOpening(p, source), now)
    requires Renew(swept.global, now).count == Used(Opened(p.passed), AllTimes(p.spent), now)
    requires Renew(swept.global, now).until - now == Remaining(Opened(p.passed), now)
    ensures Answers(cfg, p, source, now, false,
                    if source !in swept.sources && |swept.sources| >= CAPACITY then Refused(MINUTE, SourceCapacity)
                    else Spend(cfg, swept, source, now).1)
  {
    hide Opened, SourceTimes, AllTimes, Tracked, Used, Remaining, SourceOpening, Renew, Stored;
    assert |swept.sources| == |swept.sources.Keys|;
  }

  lemma AnswersNow(cfg: Config, l: Limiter, p: Past, clock: nat, source: Source, now: nat, emergency: bool)
    requires Mirrors(l, p, clock) && clock <= now
    ensures Answers(cfg, p, source, now, emergency, AdmitStep(cfg, l, source, now, emergency).1)
  {
    if !emergency {
      hide Opened, SourceTimes, AllTimes, Tracked, Sweep, Answers, Dated, Spend, SourceOpening, Used, Met, Remaining;
      SweepMirrors(l, p, clock, now);
      var swept, sweep := Sweep(l, now), Opened(p.ordinary + [now]);
      SweepIsPast(p, clock, now);
      assert IsSourceWindow(swept, p, sweep, source);
      MeetsSource(swept, p, sweep, source, now);
      MeetsUsed(l.global, Opened(p.passed), AllTimes(p.spent), now);
      AnswersAfterSweep(cfg, swept, p, source, now);
    }
  }

  lemma SweepIsPast(p: Past, clock: nat, now: nat)
    requires Dated(p, clock) && clock <= now
    ensures Opened(p.ordinary + [now]).Since? && Opened(p.ordinary + [now]).start <= now
  {
    OpenedPush(p.ordinary, now);
    OpeningIsDated(p.ordinary, clock);
  }

  lemma ToldDated(p: Past, clock: nat, source: Source, now: nat, emergency: bool, o: Outcome)
    requires Dated(p, clock) && clock <= now
    ensures Dated(Told(p, source, now, emergency, o), now)
  {}

  /** An admission adds its time to the minute of its source and to no other. */
  lemma SpentMirrors(l: Limiter, p: Past, clock: nat, sweep: Opening, source: Source, now: nat, s: Source, w: Window)
    requires Dated(p, clock) && clock <= now && sweep.Since? && sweep.start <= now
    requires IsSourceWindow(l, p, sweep, source) && IsSourceWindow(l, p, sweep, s)
    requires w == Met(l, source, now)
    ensures IsSourceWindow(l.(sources := l.sources[source := w.(count := w.count + 1)]),
                           p.(spent := p.spent + [Admission(source, now)]), sweep, s)
  {
    SourceTimesPush(p.spent, Admission(source, now), s);
    if s == source {
      var times := SourceTimes(p.spent, s);
      TimesAreDated(p, clock, s);
      UsedPush(times, times, now);
      MeetsSource(l, p, sweep, s, now);
      hide Opened, SourceTimes, Hits;
      assert w.until - now == Remaining(Opened(times + [now]), now);
    }
  }

  lemma SourcesAfterSpend(l: Limiter, p: Past, clock: nat, sweep: Opening, source: Source, now: nat)
    requires Dated(p, clock) && clock <= now && sweep.Since? && sweep.start <= now && SourcesMirror(l, p, sweep)
    ensures var w := Met(l, source, now);
            SourcesMirror(l.(sources := l.sources[source := w.(count := w.count + 1)]),
                          p.(spent := p.spent + [Admission(source, now)]), sweep)
  {
    hide IsSourceWindow;
    var w := Met(l, source, now);
    var l', p' := l.(sources := l.sources[source := w.(count := w.count + 1)]),
        p.(spent := p.spent + [Admission(source, now)]);
    forall s: Source ensures IsSourceWindow(l', p', sweep, s) {
      SpentMirrors(l, p, clock, sweep, source, now, s, w);
    }
  }

  lemma GlobalMirrors(g: Window, p: Past, clock: nat, source: Source, now: nat)
    requires Dated(p, clock) && clock <= now && IsWindow(g, Opened(p.passed), AllTimes(p.spent))
    ensures var g' := Renew(g, now);
            && IsWindow(g', Opened(p.passed + [now]), AllTimes(p.spent))
            && IsWindow(g'.(count := g'.count + 1), Opened(p.passed + [now]),
                        AllTimes(p.spent + [Admission(source, now)]))
  {
    AllTimesPush(p.spent, Admission(source, now));
    TimesAreDated(p, clock, source);
    UsedPush(p.passed, AllTimes(p.spent), now);
    MeetsUsed(g, Opened(p.passed), AllTimes(p.spent), now);
  }

  lemma SameSources(l: Limiter, l': Limiter, p: Past, p': Past, sweep: Opening)
    requires SourcesMirror(l, p, sweep) && l'.sources == l.sources && p'.spent == p.spent
    ensures SourcesMirror(l', p', sweep)
  {
    forall s: Source ensures IsSourceWindow(l', p', sweep, s) {
      assert IsSourceWindow(l, p, sweep, s);
    }
  }

  lemma CallMirrors(cfg: Config, l: Limiter, p: Past, clock: nat, source: Source, now: nat, emergency: bool)
    requires Mirrors(l, p, clock) && clock <= now
    ensures var (l', o) := AdmitStep(cfg, l, source, now, emergency);
            Mirrors(l', Told(p, source, now, emergency, o), now)
  {
    hide Dated, SourcesMirror, Opened, IsWindow, AllTimes, Sweep, Tracked;
    var (l', o) := AdmitStep(cfg, l, source, now, emergency);
    var p' := Told(p, source, now, emergency, o);
    ToldDated(p, clock, source, now, emergency, o);
    if emergency {
      SameSources(l, l', p, p', Opened(p.ordinary));
    } else {
      var swept, sweep := Sweep(l, now), Opened(p.ordinary + [now]);
      SweepMirrors(l, p, clock, now);
      SweepIsPast(p, clock, now);
      GlobalMirrors(l.global, p, clock, source, now);
      if o.Admitted? {
        AdmittedMirrors(cfg, swept, p, clock, sweep, source, now);
      } else {
        SameSources(swept, l', p, p', sweep);
      }
    }
  }

  lemma AdmittedMirrors(cfg: Config, swept: Limiter, p: Past, clock: nat, sweep: Opening, source: Source, now: nat)
    requires Dated(p, clock) && clock <= now && sweep.Since? && sweep.start <= now && SourcesMirror(swept, p, sweep)
    requires Spend(cfg, swept, source, now).1.Admitted?
    ensures SourcesMirror(Spend(cfg, swept, source, now).0, Told(p, source, now, false, Admitted), sweep)
  {
    hide Dated, SourcesMirror;
    var l', p' := Spend(cfg, swept, source, now).0, Told(p, source, now, false, Admitted);
    SourcesAfterSpend(swept, p, clock, sweep, source, now);
    SameSources(swept.(sources := l'.sources), l', p.(spent := p'.spent), p', sweep);
  }

  lemma {:induction false} RunMirrors(cfg: Config, events: seq<Event>)
    requires Feasible(cfg, events)
    ensures var t := Run(cfg, events); Mirrors(t.limiter, PastOf(events, t.outcomes), t.clock)
    decreases |events|
  {
    if events == [] {
      assert SourcesMirror(Initial(), NOTHING, Never);
    } else {
      var before, e := events[..|events| - 1], events[|events| - 1];
      RunMirrors(cfg, before);
      var t, t' := Run(cfg, before), Run(cfg, events);
      var p := PastOf(before, t.outcomes);
      match e
      case Call(source, now, emergency) =>
        CallMirrors(cfg, t.limiter, p, t.clock, source, now, emergency);
        assert t'.outcomes[..|t'.outcomes| - 1] == t.outcomes;
      case Release =>
        SameSources(t.limiter, t'.limiter, p, PastOf(events, t'.outcomes), Opened(p.ordinary));
    }
  }

  // ---------- main results ----------

  /** Whatever went before, a call is answered as its past says, and the past allows no
      other answer. */
  lemma AnsweredByHistory(cfg: Config, events: seq<Event>, source: Source, now: nat, emergency: bool, o: Outcome)
    requires Feasible(cfg, events) && Run(cfg, events).clock <= now
    ensures var t := Run(cfg, events);
            o == AdmitStep(cfg, t.limiter, source, now, emergency).1
            <==> Answers(cfg, PastOf(events, t.outcomes), source, now, emergency, o)
  {
    hide Answers, AdmitStep, Mirrors, PastOf, Run, Feasible;
    RunMirrors(cfg, events);
    var t := Run(cfg, events);
    var p := PastOf(events, t.outcomes);
    AnswersNow(cfg, t.limiter, p, t.clock, source, now, emergency);
    if Answers(cfg, p, source, now, emergency, o) {
      OneAnswer(cfg, p, source, now, emergency, o, AdmitStep(cfg, t.limiter, source, now, emergency).1);
    }
  }

  lemma OneAnswer(cfg: Config, p: Past, source: Source, now: nat, emergency: bool, o: Outcome, o': Outcome)
    requires Answers(cfg, p, source, now, emergency, o) && Answers(cfg, p, source, now, emergency, o')
    ensures o == o'
  {
    hide HasRoom, SourceSpent, GlobalSpent, Remaining, SourceOpening, Opened;
  }

  /** The last full minute up to and including now. */
  function LastMinute(times: seq<int>, now: int): nat {
    Hits(times, now - MINUTE + 1, now + 1)
  }

  /** What is used of a minute was spent in the last one. */
  lemma UsedIsRecent(starts: seq<int>, times: seq<int>, now: int)
    requires (forall t | t in times :: t in starts) && forall t | t in starts :: t <= now
    ensures Used(Opened(starts), times, now) <= LastMinute(times, now)
  {
    var o := Opened(starts);
    if Running(o, now) {
      HitsWithin(times, o.start, o.start + MINUTE, now - MINUTE + 1, now + 1);
    }
  }

  /** Sources with an admission in the last two minutes. */
  function RecentSources(spent: seq<Admission>, now: int): set<Source> {
    set a | a in spent && now - 2 * MINUTE < a.at <= now :: a.source
  }

  lemma TrackedIsRecent(p: Past, clock: nat, now: nat)
    requires Dated(p, clock) && clock <= now
    ensures Tracked(p, now) <= RecentSources(p.spent, now)
  {
    forall s | s in Tracked(p, now) ensures s in RecentSources(p.spent, now) {
      var times := SourceTimes(p.spent, s);
      OpenedPush(p.ordinary, now);
      OpenedCovers(times, times[0]);
      SourceTimesAre(p.spent, s);
      TimesAreDated(p, clock, s);
      var a :| a in p.spent && a.at == Opened(times).start && a.source == s;
    }
  }

  /** Nobody is refused without cause: with a free slot, room for another source, and fewer
      admissions in the last minute than the limits allow, the call is admitted. */
  lemma AdmittedBelowTheLimits(cfg: Config, events: seq<Event>, source: Source, now: nat)
    requires Feasible(cfg, events) && Run(cfg, events).clock <= now
    requires var p := PastOf(events, Run(cfg, events).outcomes);
             && p.inUse < cfg.concurrent
             && |RecentSources(p.spent, now)| < CAPACITY
             && LastMinute(SourceTimes(p.spent, source), now) < cfg.perSource
             && (cfg.globalLimit > 0 ==> LastMinute(AllTimes(p.spent), now) < cfg.globalLimit)
    ensures AdmitStep(cfg, Run(cfg, events).limiter, source, now, false).1 == Admitted
  {
    hide Run, PastOf, AdmitStep, Feasible, Tracked, RecentSources, Used, SourceTimes, AllTimes, Opened, SourcesMirror;
    RunMirrors(cfg, events);
    var t := Run(cfg, events);
    var p := PastOf(events, t.outcomes);
    TimesAreDated(p, t.clock, source);
    UsedIsRecent(SourceTimes(p.spent, source), SourceTimes(p.spent, source), now);
    UsedIsRecent(p.passed, AllTimes(p.spent), now);
    TrackedIsRecent(p, t.clock, now);
    SubsetSize(Tracked(p, now), RecentSources(p.spent, now));
    AnsweredByHistory(cfg, events, source, now, false, Admitted);
  }
}
