/** The table of methods per route, from which the API answers 404 and 405. Patterns are
    registered one by one; a pattern whose shape overlaps another is refused, so that a
    request path belongs to at most one rule. */
module Routing {
  import opened Text

  // ---------- splitting paths ----------

  function Split(s: string, c: char): (parts: seq<string>)
    ensures parts != []
    decreases |s|
  {
    var p := Cut(s, c);
    if p.found then [p.before] + Split(p.after, c) else [s]
  }

  function Count(s: string, c: char): nat {
    if s == "" then 0 else Count(s[1..], c) + if s[0] == c then 1 else 0
  }

  function TrimLeft(s: string, c: char): (t: string)
    ensures t != "" ==> t[0] != c
    ensures s != "" && s[0] != c ==> t == s
  {
    if s != "" && s[0] == c then TrimLeft(s[1..], c) else s
  }

  function TrimRight(s: string, c: char): (t: string)
    ensures t != "" ==> t[|t| - 1] != c
    ensures t <= s
    ensures s != "" && s[|s| - 1] != c ==> t == s
  {
    if s != "" && s[|s| - 1] == c then TrimRight(s[..|s| - 1], c) else s
  }

  function Trim(s: string, c: char): (t: string)
    ensures t != "" ==> t[0] != c && t[|t| - 1] != c
  {
    TrimRight(TrimLeft(s, c), c)
  }

  lemma {:induction false} CountCut(s: string, c: char)
    ensures var p := Cut(s, c); Count(s, c) == if p.found then 1 + Count(p.after, c) else 0
  {
    if s != "" && s[0] != c {
      CountCut(s[1..], c);
    }
  }

  /** The parts of a text: what is before the first separator, then the parts of the rest. */
  lemma SplitStep(s: string, c: char)
    ensures var p := Cut(s, c); Split(s, c)[0] == p.before && Split(s, c)[1..] == if p.found then Split(p.after, c)
            else []
  {
    hide Cut;
    var p := Cut(s, c);
    if p.found {
      assert ([p.before] + Split(p.after, c))[1..] == Split(p.after, c);
    }
  }

  /** The prefilter counts separators; there is one part more. */
  lemma {:induction false} SplitLength(s: string, c: char)
    ensures |Split(s, c)| == Count(s, c) + 1
    decreases |s|
  {
    CountCut(s, c);
    if c in s {
      SplitLength(Cut(s, c).after, c);
    }
  }

  lemma {:induction false} SplitLast(s: string, c: char)
    ensures var parts := Split(s, c); HasSuffix(s, parts[|parts| - 1])
    decreases |s|
  {
    hide HasSuffix, Cut, Split;
    var p := Cut(s, c);
    SplitStep(s, c);
    if !p.found {
      WholeIsSuffix(s);
    } else {
      var parts := Split(p.after, c);
      SplitLast(p.after, c);
      LastOf(Split(s, c));
      SuffixGrows(p.before + [c], p.after, parts[|parts| - 1]);
    }
  }

  lemma LastOf(parts: seq<string>)
    requires |parts| > 1
    ensures parts[1..][|parts[1..]| - 1] == parts[|parts| - 1]
  {}

  lemma WholeIsSuffix(s: string)
    ensures HasSuffix(s, s)
  {}

  lemma SuffixGrows(a: string, b: string, suffix: string)
    requires HasSuffix(b, suffix)
    ensures HasSuffix(a + b, suffix)
  {
    assert (a + b)[|a + b| - |suffix|..] == b[|b| - |suffix|..];
  }

  lemma {:induction false} SplitEnds(s: string, c: char)
    ensures Split(s, c)[0] == "" <==> s == "" || s[0] == c
    ensures var parts := Split(s, c); parts[|parts| - 1] == "" <==> s == "" || s[|s| - 1] == c
    decreases |s|
  {
    hide Cut, Split;
    var p := Cut(s, c);
    SplitStep(s, c);
    if p.found {
      SplitEnds(p.after, c);
      LastOf(Split(s, c));
    }
  }

  function Join(parts: seq<string>, c: char): string
    requires parts != []
  {
    if |parts| == 1 then parts[0] else parts[0] + [c] + Join(parts[1..], c)
  }

  /** Splitting and joining undo each other. */
  lemma {:induction false} JoinSplit(s: string, c: char)
    ensures Join(Split(s, c), c) == s
    ensures forall i | 0 <= i < |Split(s, c)| :: c !in Split(s, c)[i]
    decreases |s|
  {
    hide Cut;
    var p := Cut(s, c);
    if p.found {
      JoinSplit(p.after, c);
      assert Split(s, c)[1..] == Split(p.after, c);
    }
  }

  lemma {:induction false} SplitJoin(parts: seq<string>, c: char)
    requires parts != [] && forall i | 0 <= i < |parts| :: c !in parts[i]
    ensures Split(Join(parts, c), c) == parts
    decreases |parts|
  {
    hide Cut;
    if |parts| > 1 {
      SplitJoin(parts[1..], c);
      CutAt(parts[0], c, Join(parts[1..], c));
      assert parts == [parts[0]] + parts[1..];
    }
  }

  // ---------- patterns ----------

  datatype Rule = Rule(path: string, segments: seq<string>, dynamic: bool, methods: seq<string>)

  predicate ContainsAny(s: string, chars: string) {
    exists i | 0 <= i < |s| :: s[i] in chars
  }

  predicate IsParameter(segment: string) {
    segment != "" && segment[0] == '{'
  }

  predicate GoodSegment(segment: string) {
    && segment != "" && segment != "." && segment != ".."
    && if HasPrefix(segment, "{") && HasSuffix(segment, "}") && |segment| > 1 then
         var name := segment[1..|segment| - 1]; name != "" && !ContainsAny(name, "{}.$")
       else !ContainsAny(segment, "{}")
  }

  datatype Route = Route(rule: Rule, verb: string)

  function ParsePattern(pattern: string): Option<Route> {
    var p := Cut(pattern, ' ');
    if !p.found || p.before == "" || ContainsAny(p.before, "\t\r\n") || !HasPrefix(p.after, "/")
        || ContainsAny(p.after, "%?#\\ \t\r\n") then None
    else
      var segments := Split(p.after[1..], '/');
      if exists i | 0 <= i < |segments| :: !GoodSegment(segments[i]) then None
      else Some(Route(Rule(p.after, segments, exists i | 0 <= i < |segments| :: IsParameter(segments[i]), []),
          p.before))
  }

  /** What a rule made from a pattern looks like. */
  predicate WellFormed(r: Rule) {
    && HasPrefix(r.path, "/") && r.segments == Split(r.path[1..], '/')
    && (forall i | 0 <= i < |r.segments| :: r.segments[i] != "")
    && (r.dynamic <==> exists i | 0 <= i < |r.segments| :: IsParameter(r.segments[i]))
  }

  lemma ParsedIsWellFormed(pattern: string)
    requires ParsePattern(pattern).Some?
    ensures WellFormed(ParsePattern(pattern).value.rule)
  {}

  predicate Compatible(a: string, b: string) {
    a == b || IsParameter(a) || IsParameter(b)
  }

  /** Two shapes that some path could both have. */
  predicate Overlap(a: Rule, b: Rule) {
    |a.segments| == |b.segments| && forall i | 0 <= i < |a.segments| :: Compatible(a.segments[i], b.segments[i])
  }

  // ---------- matching ----------

  predicate Fits(part: string, segment: string) {
    part != "" && (IsParameter(segment) || part == segment)
  }

  /** A static rule is its path; a rule with parameters is compared part by part with the
      trimmed path. */
  predicate Matches(r: Rule, path: string) {
    if !r.dynamic then path == r.path
    else AllFit(Split(Trim(path, '/'), '/'), r.segments)
  }

  predicate AllFit(parts: seq<string>, segments: seq<string>) {
    |parts| == |segments| && forall i | 0 <= i < |parts| :: Fits(parts[i], segments[i])
  }

  /** One cut per segment. */
  method MatchSegments(segments: seq<string>, text: string) returns (ok: bool)
    requires segments != [] && forall i | 0 <= i < |segments| :: segments[i] != ""
    requires text == "" || text[|text| - 1] != '/'
    ensures ok <==> AllFit(Split(text, '/'), segments)
  {
    hide Split;
    var rest := text;
    ghost var parts := Split(text, '/');
    SplitEnds(text, '/');
    for i := 0 to |segments|
      invariant i <= |parts| && forall j | 0 <= j < i :: Fits(parts[j], segments[j])
      invariant if i < |parts| then Split(rest, '/') == parts[i..] else rest == ""
    {
      var p := Cut(rest, '/');
      SplitStep(rest, '/');
      if p.before == "" || (segments[i][0] != '{' && p.before != segments[i]) {
        return false;
      }
      assert i < |parts| && p.before == parts[i];
      assert parts[i..][1..] == parts[i + 1..];
      rest := p.after;
    }
    ok := rest == "";
    if |segments| < |parts| {
      SplitEnds(rest, '/');
      assert parts[|segments|..][|parts| - |segments| - 1] == parts[|parts| - 1];
    }
  }

  /** The early test on the last segment turns away nothing that fits. */
  lemma LastSegmentFits(segments: seq<string>, text: string)
    requires segments != [] && AllFit(Split(text, '/'), segments)
    ensures IsParameter(segments[|segments| - 1]) || HasSuffix(text, segments[|segments| - 1])
  {
    hide Split, HasSuffix;
    SplitLast(text, '/');
    assert Fits(Split(text, '/')[|segments| - 1], segments[|segments| - 1]);
  }

  /** The matcher as it runs: a test of the last segment first, then one cut per segment. */
  method MatchPath(r: Rule, path: string) returns (ok: bool)
    requires r.dynamic ==> r.segments != [] && forall i | 0 <= i < |r.segments| :: r.segments[i] != ""
    ensures ok <==> Matches(r, path)
  {
    hide Split, Trim, HasSuffix, AllFit;
    if !r.dynamic {
      return path == r.path;
    }
    var trimmed := Trim(path, '/');
    var last := r.segments[|r.segments| - 1];
    if AllFit(Split(trimmed, '/'), r.segments) {
      LastSegmentFits(r.segments, trimmed);
    }
    if last[0] != '{' && !HasSuffix(trimmed, last) {
      return false;
    }
    ok := MatchSegments(r.segments, trimmed);
  }
}
