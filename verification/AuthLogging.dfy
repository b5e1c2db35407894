/** Sampling of login events for the log. Within a one-minute window the first ten
    events of each kind are written out; the rest are only counted, and the first
    event after the window reports the counts. */
module AuthLogging {
  import opened FixedWindow

  const KINDS: nat := 23
  const SAMPLES: nat := 10
  const MAX_UINT64: nat := 0xFFFF_FFFF_FFFF_FFFF

  type Kind = k: nat | k < KINDS witness 0

  datatype Sampler = Sampler(until: nat, counts: seq<nat>)

  predicate Valid(s: Sampler) {
    |s.counts| == KINDS && forall k: Kind :: s.counts[k] <= MAX_UINT64
  }

  function NoCounts(): (c: seq<nat>)
    ensures |c| == KINDS && forall i | 0 <= i < KINDS :: c[i] == 0
  {
    seq(KINDS, i => 0)
  }

  function Initial(): (s: Sampler)
    ensures Valid(s)
  {
    Sampler(0, NoCounts())
  }

  function Excess(count: nat): nat {
    if count > SAMPLES then count - SAMPLES else 0
  }

  function Excesses(counts: seq<nat>): seq<nat> {
    seq(|counts|, i requires 0 <= i < |counts| => Excess(counts[i]))
  }

  datatype Report = Report(emit: bool, suppressed: seq<nat>)

  /** One event of `kind` at `now`; a saturated counter stays where it is. */
  function AdmitStep(s: Sampler, kind: Kind, now: nat): (r: (Sampler, Report))
    requires Valid(s)
    ensures Valid(r.0) && |r.1.suppressed| == KINDS
  {
    var over := now >= s.until;
    var counts := if over then NoCounts() else s.counts;
    var bumped := if counts[kind] == MAX_UINT64 then counts else counts[kind := counts[kind] + 1];
    (Sampler(if over then now + MINUTE else s.until, bumped),
     Report(bumped[kind] <= SAMPLES, if over then Excesses(s.counts) else NoCounts()))
  }

  class AuthLogState {
    var until: nat
    var counts: array<nat>

    ghost predicate Ready()
      reads this, counts
    {
      counts.Length == KINDS && Valid(View())
    }

    ghost function View(): Sampler
      reads this, counts
    {
      Sampler(until, counts[..])
    }

    constructor ()
      ensures Ready() && View() == Initial() && fresh(counts)
    {
      until := 0;
      counts := new nat[KINDS](i => 0);
      new;
      assert counts[..] == NoCounts();
    }

    method Admit(kind: Kind, now: nat) returns (emit: bool, suppressed: seq<nat>)
      requires Ready()
      modifies this, counts
      ensures Ready() && (counts == old(counts) || fresh(counts))
      ensures (View(), Report(emit, suppressed)) == AdmitStep(old(View()), kind, now)
    {
      var quiet := new nat[KINDS](i => 0);
      if now >= until {
        for i := 0 to KINDS
          invariant counts.Length == KINDS && counts[..] == old(counts[..])
          invariant forall j | 0 <= j < KINDS :: quiet[j] == if j < i then Excess(counts[j]) else 0
        {
          if counts[i] > SAMPLES {
            quiet[i] := counts[i] - SAMPLES;
          }
        }
        assert quiet[..] == Excesses(old(counts[..]));
        counts := new nat[KINDS](i => 0);
        until := now + MINUTE;
        assert counts[..] == NoCounts();
      } else {
        assert quiet[..] == NoCounts();
      }
      suppressed := quiet[..];
      if counts[kind] != MAX_UINT64 {
        counts[kind] := counts[kind] + 1;
      }
      emit := counts[kind] <= SAMPLES;
    }
  }

  // ---------- runs ----------

  datatype Event = Event(kind: Kind, now: nat)

  /** What happened to the events of one kind: `written` lists when they were logged,
      `reported` adds up the counts in the summaries, `lost` are the ones that met a
      saturated counter. */
  datatype Tally = Tally(seen: nat, written: seq<int>, reported: nat, lost: nat)

  function Run(events: seq<Event>): (s: Sampler)
    ensures Valid(s)
  {
    if events == [] then Initial()
    else AdmitStep(Run(events[..|events| - 1]), events[|events| - 1].kind, events[|events| - 1].now).0
  }

  /** The event falls inside the window of a counter that cannot count any further. */
  predicate Saturated(s: Sampler, e: Event)
    requires Valid(s)
  {
    e.now < s.until && s.counts[e.kind] == MAX_UINT64
  }

  function TallyNext(t: Tally, s: Sampler, e: Event, kind: Kind): Tally
    requires Valid(s)
  {
    var report := AdmitStep(s, e.kind, e.now).1;
    var summed := t.(reported := t.reported + report.suppressed[kind]);
    if e.kind != kind then summed
    else Tally(t.seen + 1,
               if report.emit then t.written + [e.now] else t.written,
               summed.reported,
               t.lost + if Saturated(s, e) then 1 else 0)
  }

  function TallyOf(events: seq<Event>, kind: Kind): Tally {
    if events == [] then Tally(0, [], 0, 0)
    else TallyNext(TallyOf(events[..|events| - 1], kind), Run(events[..|events| - 1]), events[|events| - 1], kind)
  }

  lemma ConservedStep(t: Tally, s: Sampler, e: Event, kind: Kind)
    requires Valid(s)
    ensures var t', s' := TallyNext(t, s, e, kind), AdmitStep(s, e.kind, e.now).0;
            && t'.seen - t.seen == (if e.kind == kind then 1 else 0)
            && t'.seen - |t'.written| - t'.reported - Excess(s'.counts[kind]) - t'.lost
               == t.seen - |t.written| - t.reported - Excess(s.counts[kind]) - t.lost
            && (t'.lost == t.lost <==> !(e.kind == kind && Saturated(s, e)))
            && t'.lost >= t.lost
  {}

  /** Every event of a kind was written out, or counted in a summary, or is still
      waiting for the next summary, or was lost to saturation. No clock is assumed. */
  lemma {:induction false} EventsConserved(events: seq<Event>, kind: Kind)
    ensures var t := TallyOf(events, kind);
            t.seen == |t.written| + t.reported + Excess(Run(events).counts[kind]) + t.lost
  {
    if events != [] {
      var before := events[..|events| - 1];
      EventsConserved(before, kind);
      ConservedStep(TallyOf(before, kind), Run(before), events[|events| - 1], kind);
    }
  }

  /** Event number `i` is of the kind and met a saturated counter. */
  predicate Swallowed(events: seq<Event>, kind: Kind, i: nat)
    requires i < |events|
  {
    events[i].kind == kind && Saturated(Run(events[..i]), events[i])
  }

  lemma {:induction false} LostWhenSwallowed(events: seq<Event>, kind: Kind)
    ensures TallyOf(events, kind).lost == 0 <==> forall i | 0 <= i < |events| :: !Swallowed(events, kind, i)
  {
    if events != [] {
      var last := |events| - 1;
      var before := events[..last];
      LostWhenSwallowed(before, kind);
      ConservedStep(TallyOf(before, kind), Run(before), events[last], kind);
      assert Swallowed(events, kind, last) <==> events[last].kind == kind && Saturated(Run(before), events[last]);
      forall i | 0 <= i < last ensures Swallowed(events, kind, i) == Swallowed(before, kind, i) {
        assert before[..i] == events[..i];
      }
    }
  }

  /** Every event of the kind is written, reported or still pending exactly when none met a
      saturated counter. */
  lemma LostOnlyToSaturation(events: seq<Event>, kind: Kind)
    ensures var t := TallyOf(events, kind);
            t.seen == |t.written| + t.reported + Excess(Run(events).counts[kind])
            <==> forall i | 0 <= i < |events| :: !Swallowed(events, kind, i)
  {
    EventsConserved(events, kind);
    LostWhenSwallowed(events, kind);
  }

  predicate Ordered(events: seq<Event>) {
    forall i, j | 0 <= i < j < |events| :: events[i].now <= events[j].now
  }

  function Clock(events: seq<Event>): nat {
    if events == [] then 0 else events[|events| - 1].now
  }

  /** The window of one kind, counting only what was written out. */
  function Written(s: Sampler, kind: Kind): Window
    requires Valid(s)
  {
    Window(s.until, if s.counts[kind] < SAMPLES then s.counts[kind] else SAMPLES)
  }

  lemma WrittenStep(t: Tally, s: Sampler, e: Event, kind: Kind)
    requires Valid(s) && Bounded(t.written, Written(s, kind), SAMPLES) && s.until <= e.now + MINUTE
    ensures var s' := AdmitStep(s, e.kind, e.now).0;
            Bounded(TallyNext(t, s, e, kind).written, Written(s', kind), SAMPLES) && s'.until <= e.now + MINUTE
  {
    var w := Written(s, kind);
    if e.now >= w.until {
      BoundedFresh(t.written, w, SAMPLES, e.now);
    }
    if e.kind == kind && Renew(w, e.now).count < SAMPLES {
      BoundedSpend(t.written, Renew(w, e.now), SAMPLES, e.now);
    }
  }

  lemma {:induction false} WrittenBounded(events: seq<Event>, kind: Kind)
    requires Ordered(events)
    ensures Bounded(TallyOf(events, kind).written, Written(Run(events), kind), SAMPLES)
    ensures Run(events).until <= Clock(events) + MINUTE
  {
    if events != [] {
      var before := events[..|events| - 1];
      WrittenBounded(before, kind);
      WrittenStep(TallyOf(before, kind), Run(before), events[|events| - 1], kind);
    }
  }

  /** With a clock that does not go back, no half-open minute sees more than twenty
      written events of one kind, and no window more than ten. */
  lemma MinuteWritten(events: seq<Event>, kind: Kind, lo: int)
    requires Ordered(events)
    ensures Hits(TallyOf(events, kind).written, lo, lo + MINUTE) <= 2 * SAMPLES
    ensures var until := Run(events).until; Hits(TallyOf(events, kind).written, until - MINUTE, until) <= SAMPLES
  {
    WrittenBounded(events, kind);
    assert MinuteHits(TallyOf(events, kind).written, lo) <= 2 * SAMPLES;
  }

  // ---------- the log told by the events alone ----------

  function Times(events: seq<Event>): seq<int> {
    seq(|events|, i requires 0 <= i < |events| => events[i].now)
  }

  function KindTimes(events: seq<Event>, kind: Kind): seq<int> {
    if events == [] then []
    else
      var last := events[|events| - 1];
      KindTimes(events[..|events| - 1], kind) + if last.kind == kind then [last.now] else []
  }

  function AtMost(n: nat, max: nat): nat {
    if n < max then n else max
  }

  /** The counters count the events of the minute that the last one lies in. */
  ghost predicate Counts(s: Sampler, events: seq<Event>)
    requires Valid(s)
  {
    var o := Opened(Times(events));
    && s.until == (if o.Never? then 0 else o.start + MINUTE)
    && forall kind: Kind :: s.counts[kind] == AtMost(Within(o, KindTimes(events, kind)), MAX_UINT64)
  }

  lemma {:induction false} KindTimesAreTimes(events: seq<Event>, kind: Kind)
    ensures forall t | t in KindTimes(events, kind) :: t in Times(events)
  {
    if events != [] {
      var last := |events| - 1;
      KindTimesAreTimes(events[..last], kind);
      assert Times(events) == Times(events[..last]) + [events[last].now];
    }
  }

  lemma TimesInOrder(events: seq<Event>, now: int)
    requires Ordered(events) && Clock(events) <= now
    ensures forall t | t in Times(events) :: t <= now
  {
    forall t | t in Times(events) ensures t <= now {
      var i :| 0 <= i < |events| && Times(events)[i] == t;
    }
  }

  lemma KindWithin(events: seq<Event>, e: Event, kind: Kind)
    requires Ordered(events) && Clock(events) <= e.now
    ensures var times, o := KindTimes(events, kind), Opened(Times(events) + [e.now]);
            && Within(o, times) == Used(Opened(Times(events)), times, e.now)
            && Within(o, times + [e.now]) == Within(o, times) + 1
  {
    KindTimesAreTimes(events, kind);
    TimesInOrder(events, e.now);
    UsedPush(Times(events), KindTimes(events, kind), e.now);
  }

  lemma KindTimesPush(events: seq<Event>, e: Event, kind: Kind)
    ensures KindTimes(events + [e], kind) == KindTimes(events, kind) + if e.kind == kind then [e.now] else []
  {
    assert (events + [e])[..|events|] == events;
  }

  lemma CountNext(s: Sampler, events: seq<Event>, e: Event, kind: Kind)
    requires Valid(s) && Ordered(events) && Clock(events) <= e.now && Counts(s, events)
    ensures AdmitStep(s, e.kind, e.now).0.counts[kind]
            == AtMost(Within(Opened(Times(events) + [e.now]), KindTimes(events + [e], kind)), MAX_UINT64)
  {
    hide Opened, Times, KindTimes, Hits;
    KindTimesPush(events, e, kind);
    KindWithin(events, e, kind);
    var o, times := Opened(Times(events)), KindTimes(events, kind);
    assert s.counts[kind] == AtMost(Within(o, times), MAX_UINT64);
    assert e.now < s.until <==> Running(o, e.now);
    assert times + [] == times;
  }

  lemma TimesPush(events: seq<Event>, e: Event)
    ensures Times(events + [e]) == Times(events) + [e.now]
  {}

  lemma CountsNext(s: Sampler, events: seq<Event>, e: Event)
    requires Valid(s) && Ordered(events) && Clock(events) <= e.now && Counts(s, events)
    ensures Counts(AdmitStep(s, e.kind, e.now).0, events + [e])
  {
    hide KindTimes, Within, Opened, Times, Ordered;
    TimesPush(events, e);
    OpenedPush(Times(events), e.now);
    var s', o := AdmitStep(s, e.kind, e.now).0, Opened(Times(events + [e]));
    assert s'.until == o.start + MINUTE;
    hide AdmitStep;
    forall kind: Kind ensures s'.counts[kind] == AtMost(Within(o, KindTimes(events + [e], kind)), MAX_UINT64) {
      CountNext(s, events, e, kind);
    }
  }

  lemma {:induction false} RunCounts(events: seq<Event>)
    requires Ordered(events)
    ensures Counts(Run(events), events)
  {
    if events != [] {
      var before, e := events[..|events| - 1], events[|events| - 1];
      RunCounts(before);
      assert events == before + [e];
      CountsNext(Run(before), before, e);
    }
  }

  /** An event is written exactly when fewer than ten of its kind came before it in its
      minute. A summary comes with the first event after a minute and gives, for each kind,
      how many more than ten there were. */
  lemma WrittenExactly(events: seq<Event>, e: Event, kind: Kind)
    requires Ordered(events) && Clock(events) <= e.now
    ensures var o, report := Opened(Times(events)), AdmitStep(Run(events), e.kind, e.now).1;
            && (report.emit <==> Used(o, KindTimes(events, e.kind), e.now) < SAMPLES)
            && report.suppressed[kind]
               == if Running(o, e.now) then 0 else Excess(AtMost(Within(o, KindTimes(events, kind)), MAX_UINT64))
  {
    RunCounts(events);
    hide Opened, KindTimes, Times, Run;
    assert Valid(Run(events));
  }
}
