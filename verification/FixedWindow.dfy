/** Fixed one-minute windows: a counter that starts again when its minute is over.
    The login limiter and the login log sampler both count this way. Times are
    nanoseconds since the zero `time.Time`, so the zero window has already expired
    at every clock reading. */
module FixedWindow {

  const SECOND: nat := 1_000_000_000
  const MINUTE: nat := 60 * SECOND

  datatype Window = Window(until: nat, count: nat)

  const ZERO_WINDOW := Window(0, 0)

  /** A window that has run out is replaced by an empty one starting now. */
  function Renew(w: Window, now: nat): Window {
    if now < w.until then w else Window(now + MINUTE, 0)
  }

  /** How many of the times lie in [lo, hi). */
  function Hits(times: seq<int>, lo: int, hi: int): nat {
    if times == [] then 0
    else Hits(times[..|times| - 1], lo, hi) + if lo <= times[|times| - 1] < hi then 1 else 0
  }

  function MinuteHits(times: seq<int>, lo: int): nat {
    Hits(times, lo, lo + MINUTE)
  }

  /** What a window remembers about the admissions so far is enough to bound every
      interval of one minute by twice the limit. */
  ghost predicate Bounded(times: seq<int>, w: Window, limit: int) {
    && (forall t | t in times :: t < w.until)
    && Hits(times, w.until - MINUTE, w.until) <= w.count <= limit
    && Hits(times, w.until - 2 * MINUTE, w.until - MINUTE) <= limit
    && forall lo: int :: MinuteHits(times, lo) <= 2 * limit
  }

  lemma HitsPush(times: seq<int>, t: int, lo: int, hi: int)
    ensures Hits(times + [t], lo, hi) == Hits(times, lo, hi) + if lo <= t < hi then 1 else 0
  {
    assert (times + [t])[..|times|] == times;
  }

  lemma {:induction false} HitsWithin(times: seq<int>, lo: int, hi: int, lo': int, hi': int)
    requires forall t | t in times && lo <= t < hi :: lo' <= t < hi'
    ensures Hits(times, lo, hi) <= Hits(times, lo', hi')
  {
    if times != [] {
      var last := |times| - 1;
      assert times[last] in times && forall t | t in times[..last] :: t in times;
      HitsWithin(times[..last], lo, hi, lo', hi');
    }
  }

  lemma {:induction false} HitsCut(times: seq<int>, lo: int, mid: int, hi: int)
    requires lo <= mid <= hi
    ensures Hits(times, lo, hi) == Hits(times, lo, mid) + Hits(times, mid, hi)
  {
    if times != [] {
      HitsCut(times[..|times| - 1], lo, mid, hi);
    }
  }

  lemma {:induction false} HitsNone(times: seq<int>, lo: int, hi: int)
    requires forall t | t in times :: !(lo <= t < hi)
    ensures Hits(times, lo, hi) == 0
  {
    if times != [] {
      var last := |times| - 1;
      assert times[last] in times && forall t | t in times[..last] :: t in times;
      HitsNone(times[..last], lo, hi);
    }
  }

  lemma {:induction false} HitsSome(times: seq<int>, lo: int, hi: int, t: int)
    requires t in times && lo <= t < hi
    ensures Hits(times, lo, hi) > 0
  {
    var last := |times| - 1;
    if t != times[last] {
      assert times == times[..last] + [times[last]];
      HitsSome(times[..last], lo, hi, t);
    }
  }

  /** Once everything so far is over, an empty window from now on keeps the bound. */
  lemma BoundedFresh(times: seq<int>, w: Window, limit: int, now: nat)
    requires Bounded(times, w, limit)
    requires w.until <= now || (w.count == 0 && w.until <= now + MINUTE)
    ensures Bounded(times, Window(now + MINUTE, 0), limit)
  {
    forall t | t in times ensures t < now && (w.until > now ==> t < w.until - MINUTE) {
      if w.until - MINUTE <= t && w.until > now {
        HitsSome(times, w.until - MINUTE, w.until, t);
      }
    }
    HitsNone(times, now, now + MINUTE);
    if w.until <= now {
      HitsWithin(times, now - MINUTE, now, w.until - MINUTE, w.until);
    } else {
      HitsWithin(times, now - MINUTE, now, w.until - 2 * MINUTE, w.until - MINUTE);
    }
  }

  lemma BoundedSpend(times: seq<int>, w: Window, limit: int, now: nat)
    requires Bounded(times, w, limit) && w.until - MINUTE <= now < w.until && w.count < limit
    ensures Bounded(times + [now], w.(count := w.count + 1), limit)
  {
    var start, later := w.until - MINUTE, times + [now];
    HitsPush(times, now, start, w.until);
    HitsPush(times, now, start - MINUTE, start);
    forall lo: int ensures MinuteHits(later, lo) <= 2 * limit {
      assert MinuteHits(times, lo) <= 2 * limit;
      HitsPush(times, now, lo, lo + MINUTE);
      if lo <= now < lo + MINUTE {
        if lo < start {
          HitsCut(times, lo, start, lo + MINUTE);
          HitsWithin(times, lo, start, start - MINUTE, start);
          HitsWithin(times, start, lo + MINUTE, start, w.until);
        } else {
          HitsWithin(times, lo, lo + MINUTE, start, w.until);
        }
      }
    }
  }

  /** The passage of time keeps the bound. */
  lemma BoundedLater(times: seq<int>, w: Window, limit: int, clock: nat, now: nat)
    requires Bounded(times, Renew(w, clock), limit) && clock <= now && w.until <= clock + MINUTE
    ensures Bounded(times, Renew(w, now), limit)
  {
    if now >= w.until {
      BoundedFresh(times, Renew(w, clock), limit, now);
    }
  }

  // ---------- windows told by the times alone ----------

  datatype Opening = Never | Since(start: int)

  /** When the minute began that the last of the times lies in: a time opens a new minute
      unless the minute before it is still running. */
  function Opened(times: seq<int>): Opening {
    if times == [] then Never
    else
      var before, last := Opened(times[..|times| - 1]), times[|times| - 1];
      if Running(before, last) then before else Since(last)
  }

  predicate Running(o: Opening, now: int) {
    o.Since? && now < o.start + MINUTE
  }

  /** How many of the times lie in the minute. */
  function Within(o: Opening, times: seq<int>): nat {
    if o.Never? then 0 else Hits(times, o.start, o.start + MINUTE)
  }

  /** The same if the minute is still running, otherwise nothing is used yet. */
  function Used(o: Opening, times: seq<int>, now: int): nat {
    if Running(o, now) then Within(o, times) else 0
  }

  function Remaining(o: Opening, now: int): int {
    if Running(o, now) then o.start + MINUTE - now else MINUTE
  }

  lemma OpenedPush(times: seq<int>, t: int)
    ensures Opened(times + [t]) == if Running(Opened(times), t) then Opened(times) else Since(t)
  {
    assert (times + [t])[..|times|] == times;
  }

  /** A minute begins at one of the times, and none lies behind the one opened last. */
  lemma {:induction false} OpenedCovers(times: seq<int>, t: int)
    requires t in times
    ensures Opened(times).Since? && Opened(times).start in times && t < Opened(times).start + MINUTE
  {
    var last := |times| - 1;
    var before := times[..last];
    if before != [] {
      OpenedCovers(before, if t in before then t else before[0]);
    }
    if t !in before {
      assert t == times[last];
    }
  }

  /** One more time is counted in the minute it falls into. */
  lemma UsedPush(starts: seq<int>, times: seq<int>, now: int)
    requires (forall t | t in times :: t in starts) && forall t | t in starts :: t <= now
    ensures var o, o' := Opened(starts), Opened(starts + [now]);
            && Running(o', now) && Remaining(o', now) == Remaining(o, now)
            && Within(o', times) == Used(o, times, now)
            && Within(o', times + [now]) == Used(o, times, now) + 1
  {
    OpenedPush(starts, now);
    var o' := Opened(starts + [now]);
    if Running(Opened(starts), now) {
      OpenedCovers(starts, starts[0]);
    } else {
      forall t | t in times ensures t < now {
        OpenedCovers(starts, t);
      }
      HitsNone(times, now, now + MINUTE);
    }
    HitsPush(times, now, o'.start, o'.start + MINUTE);
  }
}
