/** The authentication admission budget: one fixed one-minute window per source
    address, one global window, and a bounded number of concurrent slots. Expired
    source windows are removed lazily, by a sweep that runs at most once a minute.

    `AdmitStep` is the specification of one call under the mutex; `AuthAdmission`
    is the mutable object. */
module AuthLimits {
  import opened FixedWindow

  type Source = string

  const CAPACITY: nat := 4096

  datatype Config = Config(perSource: int, globalLimit: int, concurrent: nat)

  datatype Limiter = Limiter(sources: map<Source, Window>, nextSweep: nat, global: Window, active: nat)

  datatype Reason = SourceCapacity | SourceRate | GlobalRate | Concurrency

  datatype Outcome = Admitted | Refused(retry: nat, reason: Reason)

  function Initial(): Limiter {
    Limiter(map[], 0, ZERO_WINDOW, 0)
  }

  function Stored(sources: map<Source, Window>, source: Source): Window {
    if source in sources then sources[source] else ZERO_WINDOW
  }

  function Live(sources: map<Source, Window>, now: nat): map<Source, Window> {
    map s | s in sources && now < sources[s].until :: sources[s]
  }

  function Sweep(l: Limiter, now: nat): Limiter {
    if now < l.nextSweep then l else l.(sources := Live(l.sources, now), nextSweep := now + MINUTE)
  }

  /** The part of an ordinary call after the sweep and the capacity test. */
  function Spend(cfg: Config, l: Limiter, source: Source, now: nat): (Limiter, Outcome) {
    var w := Renew(Stored(l.sources, source), now);
    var g := Renew(l.global, now);
    if w.count >= cfg.perSource then (l, Refused(w.until - now, SourceRate))
    else if cfg.globalLimit > 0 && g.count >= cfg.globalLimit then (l.(global := g), Refused(g.until - now, GlobalRate))
    else if l.active >= cfg.concurrent then (l.(global := g), Refused(SECOND, Concurrency))
    else (Limiter(l.sources[source := w.(count := w.count + 1)], l.nextSweep, g.(count := g.count + 1), l.active + 1),
        Admitted)
  }

  function AdmitStep(cfg: Config, l: Limiter, source: Source, now: nat, emergency: bool): (Limiter, Outcome) {
    if emergency then
      if l.active >= cfg.concurrent then (l, Refused(SECOND, Concurrency)) else (l.(active := l.active + 1), Admitted)
    else
      var swept := Sweep(l, now);
      if source !in swept.sources && |swept.sources| >= CAPACITY then (swept, Refused(MINUTE, SourceCapacity))
      else Spend(cfg, swept, source, now)
  }

  /** The shared budget object. Each method body runs under its mutex. */
  class AuthAdmission {
    const cfg: Config
    var sources: map<Source, Window>
    var nextSweep: nat
    var global: Window
    var active: nat

    ghost function View(): Limiter
      reads this
    {
      Limiter(sources, nextSweep, global, active)
    }

    constructor (perSource: int, globalLimit: int, concurrent: nat)
      ensures View() == Initial()
      ensures cfg == Config(perSource, globalLimit, concurrent)
    {
      cfg := Config(perSource, globalLimit, concurrent);
      sources, nextSweep, global, active := map[], 0, ZERO_WINDOW, 0;
    }

    method Acquire() returns (ok: bool)
      modifies `active
      ensures ok <==> old(active) < cfg.concurrent
      ensures active == old(active) + if ok then 1 else 0
    {
      ok := active < cfg.concurrent;
      if ok {
        active := active + 1;
      }
    }

    method DeleteExpired(now: nat)
      modifies `sources
      ensures sources == Live(old(sources), now)
    {
      var pending := sources.Keys;
      while pending != {}
        invariant pending <= old(sources).Keys
        invariant sources == map s | s in old(sources) && (s in pending || now < old(sources)[s].until)
                  :: old(sources)[s]
        decreases |pending|
      {
        var key :| key in pending;
        pending := pending - {key};
        if now >= sources[key].until {
          sources := sources - {key};
        }
      }
    }

    method AdmitReason(source: Source, now: nat, emergency: bool) returns (outcome: Outcome)
      modifies this
      ensures (View(), outcome) == AdmitStep(cfg, old(View()), source, now, emergency)
    {
      if emergency {
        var free := Acquire();
        return if free then Admitted else Refused(SECOND, Concurrency);
      }
      if now >= nextSweep {
        DeleteExpired(now);
        nextSweep := now + MINUTE;
      }
      if source !in sources && |sources| >= CAPACITY {
        return Refused(MINUTE, SourceCapacity);
      }
      outcome := SpendBudget(source, now);
    }

    method SpendBudget(source: Source, now: nat) returns (outcome: Outcome)
      modifies this
      ensures (View(), outcome) == Spend(cfg, old(View()), source, now)
    {
      var window := if source in sources then sources[source] else ZERO_WINDOW;
      if now >= window.until {
        window := Window(now + MINUTE, 0);
      }
      if window.count >= cfg.perSource {
        return Refused(window.until - now, SourceRate);
      }
      if now >= global.until {
        global := Window(now + MINUTE, 0);
      }
      if cfg.globalLimit > 0 && global.count >= cfg.globalLimit {
        return Refused(global.until - now, GlobalRate);
      }
      var free := Acquire();
      if !free {
        return Refused(SECOND, Concurrency);
      }
      sources := sources[source := window.(count := window.count + 1)];
      global := global.(count := global.count + 1);
      outcome := Admitted;
    }

    /** The closure handed to an admitted caller; it runs once per admission. */
    method Release()
      requires active > 0
      modifies `active
      ensures View() == old(View()).(active := old(active) - 1)
    {
      active := active - 1;
    }
  }

  // ---------- runs ----------

  datatype Event = Call(source: Source, now: nat, emergency: bool) | Release

  /** One admission that spent the rate budget. */
  datatype Admission = Admission(source: Source, at: nat)

  datatype Trace = Trace(limiter: Limiter, clock: nat, outcomes: seq<Outcome>, spent: seq<Admission>, outstanding: nat)

  function Start(): Trace {
    Trace(Initial(), 0, [], [], 0)
  }

  /** Clock readings do not go backwards, and only an outstanding admission is released. */
  predicate Allowed(t: Trace, e: Event) {
    match e
    case Call(_, now, _) => t.clock <= now
    case Release => t.outstanding > 0 && t.limiter.active > 0
  }

  function Next(cfg: Config, t: Trace, e: Event): Trace
    requires Allowed(t, e)
  {
    match e
    case Release => t.(limiter := t.limiter.(active := t.limiter.active - 1), outstanding := t.outstanding - 1)
    case Call(source, now, emergency) =>
      var (l, outcome) := AdmitStep(cfg, t.limiter, source, now, emergency);
      Trace(l, now, t.outcomes + [outcome],
            if outcome.Admitted? && !emergency then t.spent + [Admission(source, now)] else t.spent,
            t.outstanding + if outcome.Admitted? then 1 else 0)
  }

  /** The events can happen in this order. */
  ghost predicate Feasible(cfg: Config, events: seq<Event>)
    decreases |events|, 0
  {
    events == [] ||
    (var last := |events| - 1;
     Feasible(cfg, events[..last]) && Allowed(Run(cfg, events[..last]), events[last]))
  }

  ghost function Run(cfg: Config, events: seq<Event>): Trace
    requires Feasible(cfg, events)
    decreases |events|, 1
  {
    if events == [] then Start() else Next(cfg, Run(cfg, events[..|events| - 1]), events[|events| - 1])
  }

  // ---------- what every run keeps ----------

  function SourceTimes(spent: seq<Admission>, source: Source): seq<int> {
    if spent == [] then []
    else
      var last := spent[|spent| - 1];
      SourceTimes(spent[..|spent| - 1], source) + if last.source == source then [last.at] else []
  }

  function AllTimes(spent: seq<Admission>): seq<int> {
    seq(|spent|, i requires 0 <= i < |spent| => spent[i].at)
  }

  /** The window a call from `source` would meet at time `now`, swept or not. */
  function Met(l: Limiter, source: Source, now: nat): Window {
    Renew(Stored(l.sources, source), now)
  }

  /** A stored window has been spent from and ends within a minute. */
  ghost predicate Started(sources: map<Source, Window>, now: nat) {
    forall s | s in sources :: sources[s].count > 0 && sources[s].until <= now + MINUTE
  }

  ghost predicate Sound(cfg: Config, l: Limiter, now: nat) {
    && |l.sources| <= CAPACITY
    && l.nextSweep <= now + MINUTE
    && l.global.until <= now + MINUTE
    && Started(l.sources, now)
    && l.active <= cfg.concurrent
  }

  ghost predicate Accounted(cfg: Config, t: Trace) {
    && Sound(cfg, t.limiter, t.clock)
    && t.outstanding == t.limiter.active
    && (cfg.perSource >= 0 ==> forall s: Source
       :: Bounded(SourceTimes(t.spent, s), Met(t.limiter, s, t.clock), cfg.perSource))
    && (cfg.perSource < 0 ==> t.spent == [])
    && (cfg.globalLimit > 0 ==> Bounded(AllTimes(t.spent), Renew(t.limiter.global, t.clock), cfg.globalLimit))
  }

  lemma SourceTimesPush(spent: seq<Admission>, a: Admission, s: Source)
    ensures SourceTimes(spent + [a], s) == if a.source == s then SourceTimes(spent, s) + [a.at]
            else SourceTimes(spent, s)
  {
    assert (spent + [a])[..|spent|] == spent;
  }

  lemma SweepKeepsMet(l: Limiter, now: nat, s: Source)
    ensures Met(Sweep(l, now), s, now) == Met(l, s, now)
  {}

  lemma LiveIsSmaller(sources: map<Source, Window>, now: nat)
    ensures |Live(sources, now)| <= |sources|
  {
    assert Live(sources, now).Keys <= sources.Keys;
    SubsetSize(Live(sources, now).Keys, sources.Keys);
  }

  lemma {:induction false} SubsetSize(a: set<Source>, b: set<Source>)
    requires a <= b
    ensures |a| <= |b|
  {
    if a != {} {
      var x :| x in a;
      SubsetSize(a - {x}, b - {x});
    }
  }

  lemma SoundSweep(cfg: Config, l: Limiter, clock: nat, now: nat)
    requires Sound(cfg, l, clock) && clock <= now
    ensures Sound(cfg, Sweep(l, now), now)
  {
    LiveIsSmaller(l.sources, now);
  }

  lemma SoundSpend(cfg: Config, l: Limiter, source: Source, now: nat)
    requires Sound(cfg, l, now) && (source in l.sources || |l.sources| < CAPACITY)
    ensures Sound(cfg, Spend(cfg, l, source, now).0, now)
  {
    var (l', outcome) := Spend(cfg, l, source, now);
    if outcome.Admitted? {
      assert l'.sources.Keys == l.sources.Keys + {source};
    }
  }

  lemma SoundStep(cfg: Config, l: Limiter, clock: nat, source: Source, now: nat, emergency: bool)
    requires Sound(cfg, l, clock) && clock <= now
    ensures Sound(cfg, AdmitStep(cfg, l, source, now, emergency).0, now)
  {
    if !emergency {
      SoundSweep(cfg, l, clock, now);
      var swept := Sweep(l, now);
      if source in swept.sources || |swept.sources| < CAPACITY {
        SoundSpend(cfg, swept, source, now);
      }
    }
  }

  /** A refused call leaves every window it could have met, and the slots, as they were. */
  lemma RefusalSpendsNothing(cfg: Config, l: Limiter, source: Source, now: nat, emergency: bool)
    requires AdmitStep(cfg, l, source, now, emergency).1.Refused?
    ensures var l' := AdmitStep(cfg, l, source, now, emergency).0;
            && l'.active == l.active
            && Renew(l'.global, now) == Renew(l.global, now)
            && forall s: Source :: Met(l', s, now) == Met(l, s, now)
  {
    forall s: Source {
      SweepKeepsMet(l, now, s);
    }
  }

  /** An admission charges the source it met and the global window, and nothing else. */
  lemma AdmissionSpendsOne(cfg: Config, l: Limiter, source: Source, now: nat)
    requires AdmitStep(cfg, l, source, now, false).1.Admitted?
    ensures var l' := AdmitStep(cfg, l, source, now, false).0;
            var w, g := Met(l, source, now), Renew(l.global, now);
            && w.count < cfg.perSource && (cfg.globalLimit > 0 ==> g.count < cfg.globalLimit)
            && l'.active == l.active + 1 <= cfg.concurrent
            && Renew(l'.global, now) == g.(count := g.count + 1)
            && Met(l', source, now) == w.(count := w.count + 1)
            && forall s: Source | s != source :: Met(l', s, now) == Met(l, s, now)
  {
    forall s: Source {
      SweepKeepsMet(l, now, s);
    }
  }

  lemma BoundsLater(cfg: Config, t: Trace, now: nat)
    requires Accounted(cfg, t) && t.clock <= now
    ensures cfg.perSource >= 0 ==> forall s: Source
            :: Bounded(SourceTimes(t.spent, s), Met(t.limiter, s, now), cfg.perSource)
    ensures cfg.globalLimit > 0 ==> Bounded(AllTimes(t.spent), Renew(t.limiter.global, now), cfg.globalLimit)
  {
    if cfg.perSource >= 0 {
      forall s: Source ensures Bounded(SourceTimes(t.spent, s), Met(t.limiter, s, now), cfg.perSource) {
        BoundedLater(SourceTimes(t.spent, s), Stored(t.limiter.sources, s), cfg.perSource, t.clock, now);
      }
    }
    if cfg.globalLimit > 0 {
      BoundedLater(AllTimes(t.spent), t.limiter.global, cfg.globalLimit, t.clock, now);
    }
  }

  lemma SourceBoundSpend(spent: seq<Admission>, a: Admission, w: Window, w': Window, limit: int, s: Source)
    requires Bounded(SourceTimes(spent, s), w, limit)
    requires if s == a.source then w' == w.(count := w.count + 1) && w.count < limit
             && w.until - MINUTE <= a.at < w.until else w' == w
    ensures Bounded(SourceTimes(spent + [a], s), w', limit)
  {
    SourceTimesPush(spent, a, s);
    if s == a.source {
      BoundedSpend(SourceTimes(spent, s), w, limit, a.at);
    }
  }

  lemma AllTimesPush(spent: seq<Admission>, a: Admission)
    ensures AllTimes(spent + [a]) == AllTimes(spent) + [a.at]
  {}

  lemma AccountedSpend(cfg: Config, t: Trace, source: Source, now: nat)
    requires Accounted(cfg, t) && t.clock <= now && AdmitStep(cfg, t.limiter, source, now, false).1.Admitted?
    ensures Accounted(cfg, Next(cfg, t, Call(source, now, false)))
  {
    var l, l', a := t.limiter, AdmitStep(cfg, t.limiter, source, now, false).0, Admission(source, now);
    BoundsLater(cfg, t, now);
    SoundStep(cfg, l, t.clock, source, now, false);
    assert l.global.until <= now + MINUTE && Stored(l.sources, source).until <= now + MINUTE;
    AdmissionSpendsOne(cfg, l, source, now);
    hide Bounded, SourceTimes, AllTimes, Sweep;
    forall s: Source ensures Bounded(SourceTimes(t.spent + [a], s), Met(l', s, now), cfg.perSource) {
      SourceBoundSpend(t.spent, a, Met(l, s, now), Met(l', s, now), cfg.perSource, s);
    }
    if cfg.globalLimit > 0 {
      AllTimesPush(t.spent, a);
      BoundedSpend(AllTimes(t.spent), Renew(l.global, now), cfg.globalLimit, now);
    }
    assert Next(cfg, t, Call(source, now, false))
           == Trace(l', now, t.outcomes + [Admitted], t.spent + [a], t.outstanding + 1);
  }

  lemma AccountedStep(cfg: Config, t: Trace, e: Event)
    requires Accounted(cfg, t) && Allowed(t, e)
    ensures Accounted(cfg, Next(cfg, t, e))
  {
    match e
    case Release =>
    case Call(source, now, emergency) =>
      var outcome := AdmitStep(cfg, t.limiter, source, now, emergency).1;
      if outcome.Admitted? && !emergency {
        AccountedSpend(cfg, t, source, now);
      } else {
        BoundsLater(cfg, t, now);
        SoundStep(cfg, t.limiter, t.clock, source, now, emergency);
        if outcome.Refused? {
          RefusalSpendsNothing(cfg, t.limiter, source, now, emergency);
        }
      }
  }

  lemma {:induction false} RunAccounted(cfg: Config, events: seq<Event>)
    requires Feasible(cfg, events)
    ensures Accounted(cfg, Run(cfg, events))
    decreases |events|
  {
    if events != [] {
      RunAccounted(cfg, events[..|events| - 1]);
      AccountedStep(cfg, Run(cfg, events[..|events| - 1]), events[|events| - 1]);
    }
  }

  lemma RunSound(cfg: Config, events: seq<Event>, now: nat)
    requires Feasible(cfg, events) && Run(cfg, events).clock <= now
    ensures Sound(cfg, Run(cfg, events).limiter, now)
  {
    RunAccounted(cfg, events);
  }

  // ---------- main results ----------

  function AtLeastZero(n: int): nat {
    if n < 0 then 0 else n
  }

  /** In every half-open minute of every run a source is admitted at most twice its
      limit, and all sources together at most twice the global limit when one is set. */
  lemma MinuteBound(cfg: Config, events: seq<Event>, source: Source, lo: int)
    requires Feasible(cfg, events)
    ensures Hits(SourceTimes(Run(cfg, events).spent, source), lo, lo + MINUTE) <= 2 * AtLeastZero(cfg.perSource)
    ensures cfg.globalLimit > 0 ==> Hits(AllTimes(Run(cfg, events).spent), lo, lo + MINUTE) <= 2 * cfg.globalLimit
  {
    RunAccounted(cfg, events);
    var t := Run(cfg, events);
    assert MinuteHits(SourceTimes(t.spent, source), lo) <= 2 * AtLeastZero(cfg.perSource);
    assert cfg.globalLimit > 0 ==> MinuteHits(AllTimes(t.spent), lo) <= 2 * cfg.globalLimit;
  }

  /** The source map stays within capacity, and the slots in use are exactly the
      admissions not yet released. */
  lemma SlotsAndCapacity(cfg: Config, events: seq<Event>)
    requires Feasible(cfg, events)
    ensures var t := Run(cfg, events);
            |t.limiter.sources| <= CAPACITY && t.limiter.active == t.outstanding <= cfg.concurrent
  {
    RunAccounted(cfg, events);
  }

  /** The same budget with a window per source that is never deleted or refused for room. */
  function UnsweptStep(cfg: Config, l: Limiter, source: Source, now: nat, emergency: bool): (Limiter, Outcome) {
    if emergency then AdmitStep(cfg, l, source, now, true) else Spend(cfg, l, source, now)
  }

  datatype UnsweptTrace = UnsweptTrace(limiter: Limiter, outcomes: seq<Outcome>)

  function Unswept(cfg: Config, events: seq<Event>): UnsweptTrace {
    if events == [] then UnsweptTrace(Initial(), [])
    else
      var before := Unswept(cfg, events[..|events| - 1]);
      match events[|events| - 1]
      case Release => before.(limiter := before.limiter.(active := if before.limiter.active == 0 then 0
          else before.limiter.active - 1))
      case Call(source, now, emergency) =>
        var (l, outcome) := UnsweptStep(cfg, before.limiter, source, now, emergency);
        UnsweptTrace(l, before.outcomes + [outcome])
  }

  /** A caller cannot tell the two limiters apart at time `now` or later. */
  ghost predicate Alike(l: Limiter, u: Limiter, now: nat) {
    l.active == u.active && l.global == u.global && forall s: Source :: Met(l, s, now) == Met(u, s, now)
  }

  lemma AlikeLater(l: Limiter, u: Limiter, now: nat, later: nat)
    requires Alike(l, u, now) && now <= later
    requires Started(l.sources, now) && Started(u.sources, now)
    ensures Alike(l, u, later)
  {
    forall s: Source ensures Met(l, s, later) == Met(u, s, later) {
      assert Met(l, s, now) == Met(u, s, now);
    }
  }

  lemma AlikeStep(cfg: Config, l: Limiter, u: Limiter, source: Source, now: nat, emergency: bool)
    requires Alike(l, u, now)
    requires AdmitStep(cfg, l, source, now, emergency).1 != Refused(MINUTE, SourceCapacity)
    ensures AdmitStep(cfg, l, source, now, emergency).1 == UnsweptStep(cfg, u, source, now, emergency).1
    ensures Alike(AdmitStep(cfg, l, source, now, emergency).0, UnsweptStep(cfg, u, source, now, emergency).0, now)
  {
    var l', u' := AdmitStep(cfg, l, source, now, emergency).0, UnsweptStep(cfg, u, source, now, emergency).0;
    SweepKeepsMet(l, now, source);
    assert Met(Sweep(l, now), source, now) == Met(u, source, now);
    forall s: Source ensures Met(l', s, now) == Met(u', s, now) {
      SweepKeepsMet(l, now, s);
      assert Met(l, s, now) == Met(u, s, now);
    }
  }

  lemma AlikeSlots(l: Limiter, u: Limiter, now: nat, active: nat)
    requires Alike(l, u, now)
    ensures Alike(l.(active := active), u.(active := active), now)
  {
    var l', u' := l.(active := active), u.(active := active);
    forall s: Source ensures Met(l', s, now) == Met(u', s, now) {
      assert Met(l, s, now) == Met(u, s, now);
    }
  }

  lemma UnsweptStarted(cfg: Config, u: Limiter, clock: nat, source: Source, now: nat, emergency: bool)
    requires Started(u.sources, clock) && clock <= now
    ensures Started(UnsweptStep(cfg, u, source, now, emergency).0.sources, now)
  {}

  /** Sweeping and the capacity bound change no answer: as long as nobody was refused
      for capacity, every answer is the one the unswept budget gives. */
  lemma {:induction false} RefinesUnswept(cfg: Config, events: seq<Event>)
    requires Feasible(cfg, events)
    requires Refused(MINUTE, SourceCapacity) !in Run(cfg, events).outcomes
    ensures Run(cfg, events).outcomes == Unswept(cfg, events).outcomes
    ensures Alike(Run(cfg, events).limiter, Unswept(cfg, events).limiter, Run(cfg, events).clock)
    ensures Started(Unswept(cfg, events).limiter.sources, Run(cfg, events).clock)
    decreases |events|
  {
    if events != [] {
      var before, e := events[..|events| - 1], events[|events| - 1];
      var t, u := Run(cfg, before), Unswept(cfg, before);
      assert forall o | o in t.outcomes :: o in Run(cfg, events).outcomes;
      RefinesUnswept(cfg, before);
      RunAccounted(cfg, before);
      if e.Call? {
        AlikeLater(t.limiter, u.limiter, t.clock, e.now);
        var outcome := AdmitStep(cfg, t.limiter, e.source, e.now, e.emergency).1;
        assert outcome == Run(cfg, events).outcomes[|t.outcomes|];
        AlikeStep(cfg, t.limiter, u.limiter, e.source, e.now, e.emergency);
        UnsweptStarted(cfg, u.limiter, t.clock, e.source, e.now, e.emergency);
      } else {
        AlikeSlots(t.limiter, u.limiter, t.clock, t.limiter.active - 1);
      }
    }
  }

  /** The Retry-After header rounds the wait up to whole seconds. */
  function RetryAfterSeconds(retry: nat): (s: nat)
    ensures retry <= s * SECOND < retry + SECOND
    ensures retry > 0 ==> s > 0
  {
    (retry + SECOND - 1) / SECOND
  }

  lemma WaitedCapacity(cfg: Config, l: Limiter, source: Source, now: nat, later: nat)
    requires Sound(cfg, l, now)
    requires AdmitStep(cfg, l, source, now, false).1 == Refused(MINUTE, SourceCapacity) && now + MINUTE <= later
    ensures AdmitStep(cfg, AdmitStep(cfg, l, source, now, false).0, source, later, false).1 != Refused(MINUTE,
            SourceCapacity)
  {
    SoundSweep(cfg, l, now, now);
    var l' := Sweep(l, now);
    assert Live(l'.sources, later) == map[];
  }

  lemma WaitedGlobalRate(cfg: Config, l: Limiter, source: Source, now: nat, later: nat)
    requires var o := AdmitStep(cfg, l, source, now, false).1;
             o.Refused? && o.reason.GlobalRate? && now + o.retry <= later
    ensures var again := AdmitStep(cfg, AdmitStep(cfg, l, source, now, false).0, source, later, false).1;
            again.Refused? ==> !again.reason.GlobalRate?
  {
    var l' := AdmitStep(cfg, l, source, now, false).0;
    assert l'.global.until <= later;
    assert Renew(l'.global, later).count == 0;
  }

  /** A caller whose own window has run out still finds room: either the sweep removed
      its window, or its window is still there. */
  lemma RoomAfterWaiting(cfg: Config, l: Limiter, source: Source, now: nat, later: nat)
    requires Sound(cfg, l, now) && now <= later && Stored(l.sources, source).until <= later
    requires source in l.sources || now + MINUTE <= later
    ensures source in Sweep(l, later).sources || |Sweep(l, later).sources| < CAPACITY
  {
    var live := Live(l.sources, later);
    if source in l.sources {
      assert live.Keys <= l.sources.Keys - {source};
      SubsetSize(live.Keys, l.sources.Keys - {source});
    } else {
      assert live == map[];
    }
  }

  lemma WaitedSourceRate(cfg: Config, l: Limiter, source: Source, now: nat, later: nat)
    requires Sound(cfg, l, now)
    requires var o := AdmitStep(cfg, l, source, now, false).1;
             o.Refused? && o.reason.SourceRate? && now + o.retry <= later
    ensures var again := AdmitStep(cfg, AdmitStep(cfg, l, source, now, false).0, source, later, false).1;
            again.Refused? && again.reason.SourceRate? <==> cfg.perSource <= 0
  {
    var l' := AdmitStep(cfg, l, source, now, false).0;
    assert l' == Sweep(l, now);
    SoundSweep(cfg, l, now, now);
    SweepKeepsMet(l', later, source);
    RoomAfterWaiting(cfg, l', source, now, later);
  }

  lemma WaitedStep(cfg: Config, l: Limiter, source: Source, now: nat, later: nat)
    requires Sound(cfg, l, now)
    requires var o := AdmitStep(cfg, l, source, now, false).1;
             o.Refused? && !o.reason.Concurrency? && now + o.retry <= later
    ensures var (l', o) := AdmitStep(cfg, l, source, now, false);
            var again := AdmitStep(cfg, l', source, later, false).1;
            o.retry > 0 && (again.Refused? && again.reason == o.reason <==> o.reason.SourceRate? && cfg.perSource <= 0)
  {
    var reason := AdmitStep(cfg, l, source, now, false).1.reason;
    if reason.SourceRate? {
      WaitedSourceRate(cfg, l, source, now, later);
    } else if reason.GlobalRate? {
      WaitedGlobalRate(cfg, l, source, now, later);
    } else {
      WaitedCapacity(cfg, l, source, now, later);
    }
  }

  /** Having waited the advertised time, with no call in between, a caller is not refused
      again for the reason it was told. The one exception is exact: a source limit of
      zero or less refuses for the source rate every time. */
  lemma WaitingHelps(cfg: Config, events: seq<Event>, source: Source, now: nat, wait: nat)
    requires Feasible(cfg, events) && Run(cfg, events).clock <= now
    requires var o := AdmitStep(cfg, Run(cfg, events).limiter, source, now, false).1;
             o.Refused? && !o.reason.Concurrency? && o.retry <= wait
    ensures var (l', o) := AdmitStep(cfg, Run(cfg, events).limiter, source, now, false);
            var again := AdmitStep(cfg, l', source, now + wait, false).1;
            o.retry > 0 && (again.Refused? && again.reason == o.reason <==> o.reason.SourceRate? && cfg.perSource <= 0)
  {
    RunSound(cfg, events, now);
    WaitedStep(cfg, Run(cfg, events).limiter, source, now, now + wait);
  }
}
