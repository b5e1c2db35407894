/** Building the route table pattern by pattern, and looking a path up in it. */
module RouteTable {
  import opened Text
  import opened Routing

  // ---------- sorted method sets ----------

  function Place(s: seq<string>, x: string): seq<string> {
    if s == [] || Less(s[|s| - 1], x) then s + [x] else Place(s[..|s| - 1], x) + [s[|s| - 1]]
  }

  function Sort(s: seq<string>): seq<string> {
    if s == [] then [] else Place(Sort(s[..|s| - 1]), s[|s| - 1])
  }

  /** `with`: append and sort, unless it is there already. */
  function With(methods: seq<string>, x: string): seq<string> {
    if x in methods then methods else Sort(methods + [x])
  }

  lemma {:induction false} PlaceKeeps(s: seq<string>, x: string)
    ensures forall y :: y in Place(s, x) <==> y in s || y == x
  {
    if s != [] && !Less(s[|s| - 1], x) {
      PlaceKeeps(s[..|s| - 1], x);
      assert s == s[..|s| - 1] + [s[|s| - 1]];
    }
  }

  lemma {:induction false} PlaceAscends(s: seq<string>, x: string)
    requires Ascending(s) && x !in s
    ensures Ascending(Place(s, x))
  {
    if s == [] {
    } else if Less(s[|s| - 1], x) {
      forall i | 0 <= i < |s| ensures Less(s[i], x) {
        if i < |s| - 1 {
          LessTransitive(s[i], s[|s| - 1], x);
        }
      }
    } else {
      var init, last := s[..|s| - 1], s[|s| - 1];
      PlaceAscends(init, x);
      PlaceKeeps(init, x);
      LessTotal(last, x);
      var placed := Place(init, x);
      forall i | 0 <= i < |placed| ensures Less(placed[i], last) {
        assert placed[i] in placed;
      }
    }
  }

  lemma {:induction false} SortAscends(s: seq<string>)
    requires forall i, j | 0 <= i < j < |s| :: s[i] != s[j]
    ensures Ascending(Sort(s)) && forall y :: y in Sort(s) <==> y in s
  {
    if s != [] {
      var init, last := s[..|s| - 1], s[|s| - 1];
      SortAscends(init);
      PlaceAscends(Sort(init), last);
      PlaceKeeps(Sort(init), last);
      assert s == init + [last];
    }
  }

  lemma WithAdds(methods: seq<string>, x: string)
    requires Ascending(methods)
    ensures Ascending(With(methods, x)) && forall y :: y in With(methods, x) <==> y in methods || y == x
  {
    if x !in methods {
      forall i, j | 0 <= i < j < |methods| ensures methods[i] != methods[j] {
        LessIrreflexive(methods[i]);
      }
      SortAscends(methods + [x]);
    }
  }

  /** A set of methods has only one sorted list. */
  lemma {:induction false} AscendingUnique(s: seq<string>, t: seq<string>)
    requires Ascending(s) && Ascending(t) && forall y :: y in s <==> y in t
    ensures s == t
  {
    if |t| > 0 {
      assert t[0] in t;
    }
    if s != [] {
      var x := s[|s| - 1];
      assert x in s && x in t;
      var y := t[|t| - 1];
      assert y in t && y in s;
      LastIsGreatest(s, y);
      LastIsGreatest(t, x);
      if x != y {
        LessTransitive(x, y, x);
        LessIrreflexive(x);
      }
      var s', t' := s[..|s| - 1], t[..|t| - 1];
      forall z ensures z in s' <==> z in t' {
        WithoutLast(s, z);
        WithoutLast(t, z);
      }
      AscendingUnique(s', t');
    }
  }

  lemma LastIsGreatest(s: seq<string>, x: string)
    requires Ascending(s) && x in s
    ensures x == s[|s| - 1] || Less(x, s[|s| - 1])
  {}

  lemma WithoutLast(s: seq<string>, z: string)
    requires Ascending(s) && s != []
    ensures z in s[..|s| - 1] <==> z in s && z != s[|s| - 1]
  {
    assert s == s[..|s| - 1] + [s[|s| - 1]];
    if z in s[..|s| - 1] {
      LessIrreflexive(z);
    }
  }

  // ---------- registration ----------

  predicate Refused(rules: seq<Rule>, r: Rule) {
    exists i | 0 <= i < |rules| :: rules[i].path != r.path && Overlap(rules[i], r)
  }

  function Find(rules: seq<Rule>, path: string): (i: int)
    ensures -1 <= i < |rules|
    ensures i >= 0 ==> rules[i].path == path
    ensures i == -1 ==> forall j | 0 <= j < |rules| :: rules[j].path != path
  {
    if rules == [] then -1
    else if rules[|rules| - 1].path == path then |rules| - 1
    else Find(rules[..|rules| - 1], path)
  }

  /** The table after one more pattern; none if the pattern is refused. */
  function Register(rules: seq<Rule>, pattern: string): Option<seq<Rule>> {
    var route := ParsePattern(pattern);
    if route.None? || Refused(rules, route.value.rule) then None
    else
      var r, verb := route.value.rule, route.value.verb;
      var i := Find(rules, r.path);
      if i >= 0 then Some(rules[i := r.(methods := With(rules[i].methods, verb))])
      else Some(rules + [r.(methods := With([], verb))])
  }

  class MethodRegistrar {
    var rules: seq<Rule>

    constructor ()
      ensures rules == []
    {
      rules := [];
    }

    /** Adds the method to its rule; `served` says whether the request multiplexer takes the
        pattern too. A pattern refused by either leaves the table alone. */
    method HandleFunc(pattern: string, served: bool) returns (ok: bool)
      modifies this
      ensures ok <==> Register(old(rules), pattern).Some? && served
      ensures rules == if ok then Register(old(rules), pattern).value else old(rules)
    {
      hide ParsePattern, Overlap, With;
      var route := ParsePattern(pattern);
      if route.None? {
        return false;
      }
      var rule, index := route.value.rule, -1;
      var methods: seq<string> := [];
      for i := 0 to |rules|
        invariant rules == old(rules)
        invariant !Refused(rules[..i], rule)
        invariant index == Find(rules[..i], rule.path)
        invariant methods == if index >= 0 then rules[index].methods else []
      {
        assert rules[..i + 1][..i] == rules[..i] && rules[..i + 1][i] == rules[i];
        if rules[i].path == rule.path {
          index, methods := i, rules[i].methods;
        } else if Overlap(rules[i], rule) {
          return false;
        }
      }
      assert rules[..|rules|] == rules;
      rule := rule.(methods := With(methods, route.value.verb));
      if !served {
        return false;
      }
      if index >= 0 {
        rules := rules[index := rule];
      } else {
        rules := rules + [rule];
      }
      ok := true;
    }
  }

  // ---------- lookup ----------

  predicate Candidate(r: Rule, path: string) {
    (r.dynamic ==> |r.segments| == Count(Trim(path, '/'), '/') + 1) && Matches(r, path)
  }

  /** The first rule, in table order, that passes the filter and matches. */
  function Lookup(rules: seq<Rule>, path: string): Option<seq<string>> {
    if rules == [] then None
    else if Candidate(rules[0], path) then Some(rules[0].methods)
    else Lookup(rules[1..], path)
  }

  method FindMethods(rules: seq<Rule>, path: string) returns (methods: Option<seq<string>>)
    requires forall i | 0 <= i < |rules| :: WellFormed(rules[i])
    ensures methods == Lookup(rules, path)
  {
    hide WellFormed, Matches, Trim, Count;
    var segments := Count(Trim(path, '/'), '/') + 1;
    for i := 0 to |rules|
      invariant Lookup(rules, path) == Lookup(rules[i..], path)
    {
      assert rules[i..][0] == rules[i] && rules[i..][1..] == rules[i + 1..];
      if !(rules[i].dynamic && |rules[i].segments| != segments) {
        HasSegments(rules[i]);
        var ok := MatchPath(rules[i], path);
        if ok {
          return Some(rules[i].methods);
        }
      }
    }
    methods := None;
  }

  lemma HasSegments(r: Rule)
    requires WellFormed(r)
    ensures r.segments != [] && forall i | 0 <= i < |r.segments| :: r.segments[i] != ""
  {}

  /** The filter only leaves out rules that cannot match. */
  lemma FilterIsFree(r: Rule, path: string)
    ensures Candidate(r, path) <==> Matches(r, path)
  {
    SplitLength(Trim(path, '/'), '/');
  }

  lemma {:induction false} LookupIsFirst(rules: seq<Rule>, path: string)
    ensures Lookup(rules, path).None? <==> forall i | 0 <= i < |rules| :: !Matches(rules[i], path)
    ensures Lookup(rules, path).Some?
            ==> exists i | 0 <= i < |rules| :: Matches(rules[i], path) && Lookup(rules, path) == Some(rules[i].methods)
  {
    hide Matches, Candidate;
    if rules != [] {
      FilterIsFree(rules[0], path);
      LookupIsFirst(rules[1..], path);
      if !Matches(rules[0], path) {
        assert forall i | 0 <= i < |rules| - 1 :: rules[1..][i] == rules[i + 1];
      }
    }
  }

  // ---------- at most one rule ----------

  lemma StaticParts(r: Rule)
    requires WellFormed(r)
    ensures Split(Trim(r.path, '/'), '/') == r.segments
  {
    var s := r.path[1..];
    SplitEnds(s, '/');
    assert r.path == "/" + s;
    TrimSlash(s);
  }

  lemma TrimSlash(s: string)
    requires s != "" && s[0] != '/' && s[|s| - 1] != '/'
    ensures Trim("/" + s, '/') == s
  {
    assert ("/" + s)[1..] == s;
    assert TrimLeft("/" + s, '/') == s;
  }

  /** Rules that match the same path overlap. */
  lemma BothMatch(a: Rule, b: Rule, path: string)
    requires WellFormed(a) && WellFormed(b) && Matches(a, path) && Matches(b, path)
    ensures a.path == b.path || Overlap(a, b)
  {
    hide Split, Trim, HasPrefix;
    if a.path != b.path {
      StaticParts(a);
      StaticParts(b);
    }
  }

  // ---------- the table as a whole ----------

  function TableOf(patterns: seq<string>): Option<seq<Rule>> {
    if patterns == [] then Some([])
    else
      var before := TableOf(patterns[..|patterns| - 1]);
      if before.None? then None else Register(before.value, patterns[|patterns| - 1])
  }

  predicate Parses(pattern: string) {
    ParsePattern(pattern).Some?
  }

  function RuleOf(pattern: string): Rule
    requires Parses(pattern)
  {
    ParsePattern(pattern).value.rule
  }

  predicate Names(pattern: string, path: string, verb: string) {
    Parses(pattern) && RuleOf(pattern).path == path && ParsePattern(pattern).value.verb == verb
  }

  predicate Registered(patterns: seq<string>, path: string, verb: string) {
    exists p | p in patterns :: Names(p, path, verb)
  }

  /** The methods of a rule are the registered ones. */
  ghost predicate RuleSound(patterns: seq<string>, r: Rule) {
    && WellFormed(r) && Ascending(r.methods) && r.methods != []
    && forall verb :: verb in r.methods <==> Registered(patterns, r.path, verb)
  }

  predicate Apart(rules: seq<Rule>) {
    forall i, j | 0 <= i < |rules| && 0 <= j < |rules| && i != j :: rules[i].path != rules[j].path
        && !Overlap(rules[i], rules[j])
  }

  predicate HasPath(rules: seq<Rule>, path: string) {
    exists i | 0 <= i < |rules| :: rules[i].path == path
  }

  /** The table holds exactly what the patterns say, each path once. */
  ghost predicate Describes(patterns: seq<string>, rules: seq<Rule>) {
    && (forall i | 0 <= i < |rules| :: RuleSound(patterns, rules[i]))
    && Apart(rules)
    && (forall p | p in patterns :: Parses(p) && HasPath(rules, RuleOf(p).path))
  }

  lemma OverlapSymmetric(a: Rule, b: Rule)
    ensures Overlap(a, b) <==> Overlap(b, a)
  {}

  /** The shape of a rule is determined by its path. */
  lemma SameShape(a: Rule, b: Rule)
    requires WellFormed(a) && WellFormed(b) && a.path == b.path
    ensures a.segments == b.segments && (a.dynamic <==> b.dynamic)
  {}

  lemma RegisteredPush(patterns: seq<string>, p: string, path: string, verb: string)
    ensures Registered(patterns + [p], path, verb) <==> Registered(patterns, path, verb) || Names(p, path, verb)
  {
    hide Names;
    if Registered(patterns, path, verb) {
      var q :| q in patterns && Names(q, path, verb);
      assert q in patterns + [p];
    }
    if Names(p, path, verb) {
      assert p in patterns + [p];
    }
  }

  lemma SoundPush(patterns: seq<string>, p: string, r: Rule)
    requires RuleSound(patterns, r) && Parses(p) && RuleOf(p).path != r.path
    ensures RuleSound(patterns + [p], r)
  {
    hide WellFormed, Registered, ParsePattern;
    forall verb ensures verb in r.methods <==> Registered(patterns + [p], r.path, verb) {
      RegisteredPush(patterns, p, r.path, verb);
    }
  }

  lemma SoundWith(patterns: seq<string>, p: string, methods: seq<string>)
    requires Parses(p) && Ascending(methods)
    requires forall verb :: verb in methods <==> Registered(patterns, RuleOf(p).path, verb)
    ensures RuleSound(patterns + [p], RuleOf(p).(methods := With(methods, ParsePattern(p).value.verb)))
  {
    ParsedIsWellFormed(p);
    hide WellFormed, Registered, ParsePattern, With;
    var r := RuleOf(p).(methods := With(methods, ParsePattern(p).value.verb));
    WithAdds(methods, ParsePattern(p).value.verb);
    assert ParsePattern(p).value.verb in r.methods;
    assert WellFormed(r) by { MethodsAreFree(RuleOf(p), r.methods); }
    forall verb ensures verb in r.methods <==> Registered(patterns + [p], r.path, verb) {
      RegisteredPush(patterns, p, r.path, verb);
    }
  }

  lemma MethodsAreFree(r: Rule, methods: seq<string>)
    requires WellFormed(r)
    ensures WellFormed(r.(methods := methods))
  {}

  lemma RegisterDescribes(patterns: seq<string>, rules: seq<Rule>, p: string)
    requires Describes(patterns, rules) && Register(rules, p).Some?
    ensures Describes(patterns + [p], Register(rules, p).value)
  {
    hide RuleSound, ParsePattern, Overlap, With, Ascending;
    var r := RuleOf(p);
    var i := Find(rules, r.path);
    var rules' := Register(rules, p).value;
    var at := if i >= 0 then i else |rules|;
    NewRule(patterns, rules, p);
    forall k | 0 <= k < |rules'| ensures RuleSound(patterns + [p], rules'[k]) {
      if k != at {
        assert rules'[k] == rules[k] && rules[k].path != r.path;
        SoundPush(patterns, p, rules[k]);
      }
    }
    StillApart(rules, rules', at, r);
    assert rules'[at].path == r.path;
    forall q | q in patterns + [p] ensures Parses(q) && HasPath(rules', RuleOf(q).path) {
      if q in patterns {
        var k :| 0 <= k < |rules| && rules[k].path == RuleOf(q).path;
        assert rules'[k].path == rules[k].path;
      }
    }
  }

  /** The new or extended rule carries exactly its registered methods. */
  lemma NewRule(patterns: seq<string>, rules: seq<Rule>, p: string)
    requires Describes(patterns, rules) && Register(rules, p).Some?
    ensures var i := Find(rules, RuleOf(p).path);
            RuleSound(patterns + [p], Register(rules, p).value[if i >= 0 then i else |rules|])
  {
    hide ParsePattern, WellFormed, With, Overlap, Names, Ascending;
    var path := RuleOf(p).path;
    var i := Find(rules, path);
    if i >= 0 {
      assert RuleSound(patterns, rules[i]);
      SoundWith(patterns, p, rules[i].methods);
    } else {
      forall verb ensures !Registered(patterns, path, verb) {
        NotYet(patterns, rules, path, verb);
      }
      assert Ascending([]) by { NoneAscending(); }
      SoundWith(patterns, p, []);
    }
  }

  lemma NoneAscending()
    ensures Ascending([])
  {}

  lemma NotYet(patterns: seq<string>, rules: seq<Rule>, path: string, verb: string)
    requires Describes(patterns, rules) && Find(rules, path) == -1
    ensures !Registered(patterns, path, verb)
  {
    hide ParsePattern, RuleSound, Overlap;
    forall q | q in patterns ensures !Names(q, path, verb) {
      assert HasPath(rules, RuleOf(q).path);
    }
  }

  lemma StillApart(rules: seq<Rule>, rules': seq<Rule>, at: nat, r: Rule)
    requires Apart(rules) && !Refused(rules, r) && at < |rules'| && |rules| <= |rules'| <= |rules| + 1
    requires rules'[at].path == r.path && rules'[at].segments == r.segments
    requires forall k | 0 <= k < |rules'| && k != at :: k < |rules| && rules'[k] == rules[k] && rules[k].path != r.path
    ensures Apart(rules')
  {
    forall i, j | 0 <= i < |rules'| && 0 <= j < |rules'| && i != j
      ensures rules'[i].path != rules'[j].path && !Overlap(rules'[i], rules'[j])
    {
      if i == at {
        assert rules'[j] == rules[j] && !Overlap(rules[j], r);
        OverlapSymmetric(rules[j], r);
      } else if j == at {
        assert rules'[i] == rules[i] && !Overlap(rules[i], r);
      }
    }
  }

  lemma {:induction false} TableDescribes(patterns: seq<string>)
    requires TableOf(patterns).Some?
    ensures Describes(patterns, TableOf(patterns).value)
  {
    hide Describes, Register;
    if patterns == [] {
      EmptyDescribes();
    } else {
      var before, last := patterns[..|patterns| - 1], patterns[|patterns| - 1];
      TableDescribes(before);
      RegisterDescribes(before, TableOf(before).value, last);
      assert before + [last] == patterns;
    }
  }

  lemma EmptyDescribes()
    ensures Describes([], [])
  {}

  // ---------- overlap ----------

  /** A segment that fits both. */
  function Common(a: string, b: string): string {
    if IsParameter(a) then b else a
  }

  function CommonSegments(a: Rule, b: Rule): seq<string>
    requires |a.segments| == |b.segments|
  {
    seq(|a.segments|, i requires 0 <= i < |a.segments| => Common(a.segments[i], b.segments[i]))
  }

  function CommonPath(a: Rule, b: Rule): string
    requires |a.segments| == |b.segments| > 0
  {
    "/" + Join(CommonSegments(a, b), '/')
  }

  lemma CommonParts(a: Rule, b: Rule)
    requires WellFormed(a) && WellFormed(b) && |a.segments| == |b.segments|
    ensures Split(Trim(CommonPath(a, b), '/'), '/') == CommonSegments(a, b)
  {
    hide Split, Trim, Join, IsParameter;
    var parts := CommonSegments(a, b);
    JoinSplit(a.path[1..], '/');
    JoinSplit(b.path[1..], '/');
    assert forall i | 0 <= i < |parts| :: parts[i] == a.segments[i] || parts[i] == b.segments[i];
    assert forall i | 0 <= i < |parts| :: parts[i] != "" && '/' !in parts[i];
    var s := Join(parts, '/');
    SplitJoin(parts, '/');
    SplitEnds(s, '/');
    TrimSlash(s);
  }

  lemma StaticPath(r: Rule)
    requires WellFormed(r)
    ensures r.path == "/" + Join(r.segments, '/')
  {
    JoinSplit(r.path[1..], '/');
  }

  lemma CommonFits(a: Rule, b: Rule)
    requires WellFormed(a) && WellFormed(b) && Overlap(a, b)
    ensures AllFit(CommonSegments(a, b), a.segments) && AllFit(CommonSegments(a, b), b.segments)
    ensures !a.dynamic ==> CommonSegments(a, b) == a.segments
    ensures !b.dynamic ==> CommonSegments(a, b) == b.segments
  {
    hide Split, HasPrefix;
    var parts := CommonSegments(a, b);
    assert forall i | 0 <= i < |parts| ::
        && Compatible(a.segments[i], b.segments[i])
        && Fits(parts[i], a.segments[i]) && Fits(parts[i], b.segments[i]);
    assert !a.dynamic ==> forall i | 0 <= i < |parts| :: parts[i] == a.segments[i];
    assert !b.dynamic ==> forall i | 0 <= i < |parts| :: parts[i] == b.segments[i];
  }

  /** Rules of different paths overlap exactly when some request path matches both. */
  lemma OverlapIsShared(a: Rule, b: Rule)
    requires WellFormed(a) && WellFormed(b) && a.path != b.path
    ensures Overlap(a, b) <==> exists path :: Matches(a, path) && Matches(b, path)
  {
    forall path | Matches(a, path) && Matches(b, path) ensures Overlap(a, b) {
      BothMatch(a, b, path);
    }
    if Overlap(a, b) {
      CommonParts(a, b);
      CommonFits(a, b);
      StaticPath(a);
      StaticPath(b);
      hide Split, Trim, WellFormed, CommonSegments, Overlap;
      assert Matches(a, CommonPath(a, b)) && Matches(b, CommonPath(a, b));
    }
  }

  // ---------- what is accepted ----------

  /** A pattern of another path that some request path matches as well. */
  ghost predicate Clash(p: string, r: Rule) {
    Parses(p) && RuleOf(p).path != r.path && exists path :: Matches(RuleOf(p), path) && Matches(r, path)
  }

  ghost predicate Admissible(patterns: seq<string>) {
    && (forall p | p in patterns :: Parses(p))
    && (forall p, q | p in patterns && q in patterns && Parses(q) :: !Clash(p, RuleOf(q)))
  }

  lemma ClashIsOverlap(p: string, r: Rule)
    requires Parses(p) && WellFormed(r)
    ensures Clash(p, r) <==> RuleOf(p).path != r.path && Overlap(RuleOf(p), r)
  {
    ParsedIsWellFormed(p);
    hide WellFormed, ParsePattern, Matches, Overlap;
    if RuleOf(p).path != r.path {
      OverlapIsShared(RuleOf(p), r);
    }
  }

  lemma OverlapAlike(a: Rule, b: Rule, r: Rule)
    requires WellFormed(a) && WellFormed(b) && a.path == b.path
    ensures Overlap(a, r) <==> Overlap(b, r)
  {
    SameShape(a, b);
  }

  lemma RefusedForClash(patterns: seq<string>, rules: seq<Rule>, r: Rule)
    requires Describes(patterns, rules) && WellFormed(r)
    ensures Refused(rules, r) <==> exists p | p in patterns :: Clash(p, r)
  {
    hide WellFormed, Overlap, ParsePattern, Ascending, Apart, Clash;
    forall p | p in patterns && Clash(p, r) ensures Refused(rules, r) {
      ClashIsOverlap(p, r);
      var k :| 0 <= k < |rules| && rules[k].path == RuleOf(p).path;
      assert RuleSound(patterns, rules[k]);
      ParsedIsWellFormed(p);
      OverlapAlike(rules[k], RuleOf(p), r);
    }
    forall k | 0 <= k < |rules| && rules[k].path != r.path && Overlap(rules[k], r)
      ensures exists p | p in patterns :: Clash(p, r)
    {
      assert RuleSound(patterns, rules[k]) && rules[k].methods[0] in rules[k].methods;
      var p :| p in patterns && Names(p, rules[k].path, rules[k].methods[0]);
      ParsedIsWellFormed(p);
      OverlapAlike(rules[k], RuleOf(p), r);
      ClashIsOverlap(p, r);
      assert Clash(p, r);
    }
  }

  lemma ClashSymmetric(p: string, q: string)
    requires Parses(p) && Parses(q)
    ensures Clash(p, RuleOf(q)) <==> Clash(q, RuleOf(p))
  {
    hide ParsePattern, Matches;
  }

  lemma NoSelfClash(p: string)
    requires Parses(p)
    ensures !Clash(p, RuleOf(p))
  {}

  lemma AdmissiblePush(patterns: seq<string>, last: string)
    ensures Admissible(patterns + [last]) <==>
            Admissible(patterns) && Parses(last) && !exists p | p in patterns :: Clash(p, RuleOf(last))
  {
    hide Parses, Clash;
    assert last in patterns + [last];
    assert forall p | p in patterns :: p in patterns + [last];
    if Parses(last) {
      NoSelfClash(last);
    }
    if Admissible(patterns) && Parses(last) && !exists p | p in patterns :: Clash(p, RuleOf(last)) {
      forall p, q | p in patterns + [last] && q in patterns + [last] && Parses(q) ensures !Clash(p, RuleOf(q)) {
        if p in patterns && q !in patterns {
          assert !Clash(p, RuleOf(last));
        } else if q in patterns && p !in patterns {
          ClashSymmetric(q, p);
        }
      }
    }
  }

  /** Patterns are accepted, in whatever order, exactly when each parses and no request path
      matches two of them that have different paths. */
  lemma {:induction false} AcceptedWhenApart(patterns: seq<string>)
    ensures TableOf(patterns).Some? <==> Admissible(patterns)
  {
    hide Parses, RuleOf, Clash, Describes, Refused, Admissible;
    if patterns == [] {
      NoneAdmissible();
    } else {
      var before, last := patterns[..|patterns| - 1], patterns[|patterns| - 1];
      AcceptedWhenApart(before);
      assert before + [last] == patterns;
      AdmissiblePush(before, last);
      if TableOf(before).Some? {
        TableDescribes(before);
        OneMore(before, TableOf(before).value, last);
      }
    }
  }

  lemma NoneAdmissible()
    ensures Admissible([])
  {}

  lemma OneMore(patterns: seq<string>, rules: seq<Rule>, last: string)
    requires Describes(patterns, rules)
    ensures Register(rules, last).Some? <==> Parses(last) && !exists p | p in patterns :: Clash(p, RuleOf(last))
  {
    hide ParsePattern, Refused, Clash, Describes;
    if Parses(last) {
      ParsedIsWellFormed(last);
      RefusedForClash(patterns, rules, RuleOf(last));
    }
  }

  /** At most one rule of an accepted table matches any path. */
  lemma AtMostOneMatches(patterns: seq<string>, path: string, i: nat, j: nat)
    requires TableOf(patterns).Some? && i < |TableOf(patterns).value| && j < |TableOf(patterns).value|
    requires Matches(TableOf(patterns).value[i], path) && Matches(TableOf(patterns).value[j], path)
    ensures i == j
  {
    hide Matches, Overlap, TableOf, Registered, WellFormed, Ascending;
    TableDescribes(patterns);
    var rules := TableOf(patterns).value;
    assert RuleSound(patterns, rules[i]) && RuleSound(patterns, rules[j]);
    BothMatch(rules[i], rules[j], path);
  }

  /** A path is found exactly when a registered pattern matches it, and then the answer is
      the sorted list of the methods registered under that pattern's path. */
  lemma LookupIsExact(patterns: seq<string>, path: string, p: string)
    requires TableOf(patterns).Some? && p in patterns
    ensures Parses(p)
    ensures Matches(RuleOf(p), path) ==>
              var found := Lookup(TableOf(patterns).value, path);
              && found.Some? && Ascending(found.value)
              && forall verb :: verb in found.value <==> Registered(patterns, RuleOf(p).path, verb)
    ensures Lookup(TableOf(patterns).value, path).Some?
            ==> exists q | q in patterns :: Parses(q) && Matches(RuleOf(q), path)
  {
    hide TableOf, ParsePattern, Registered, Lookup, Matches, Overlap, WellFormed, Ascending;
    TableDescribes(patterns);
    var rules := TableOf(patterns).value;
    LookupIsFirst(rules, path);
    assert HasPath(rules, RuleOf(p).path);
    var k :| 0 <= k < |rules| && rules[k].path == RuleOf(p).path;
    MatchesAlike(rules[k], p, path);
    if Lookup(rules, path).Some? {
      var i :| 0 <= i < |rules| && Matches(rules[i], path) && Lookup(rules, path) == Some(rules[i].methods);
      assert RuleSound(patterns, rules[i]);
      if Matches(rules[k], path) {
        AtMostOneMatches(patterns, path, i, k);
      }
      var verb := rules[i].methods[0];
      assert Registered(patterns, rules[i].path, verb);
      FromPattern(patterns, rules[i], verb, path);
    }
  }

  lemma MatchesAlike(r: Rule, p: string, path: string)
    requires WellFormed(r) && Parses(p) && r.path == RuleOf(p).path
    ensures Matches(r, path) <==> Matches(RuleOf(p), path)
  {
    ParsedIsWellFormed(p);
    hide WellFormed, Trim, Split, ParsePattern;
    SameShape(r, RuleOf(p));
  }

  lemma FromPattern(patterns: seq<string>, r: Rule, verb: string, path: string)
    requires WellFormed(r) && Registered(patterns, r.path, verb) && Matches(r, path)
    ensures exists q | q in patterns :: Parses(q) && Matches(RuleOf(q), path)
  {
    hide WellFormed, Matches, ParsePattern;
    var q :| q in patterns && Names(q, r.path, verb);
    MatchesAlike(r, q, path);
  }

  /** Registration order changes neither what is accepted nor any answer. */
  lemma OrderDoesNotMatter(patterns: seq<string>, reordered: seq<string>, path: string)
    requires forall p :: p in patterns <==> p in reordered
    ensures TableOf(patterns).Some? <==> TableOf(reordered).Some?
    ensures TableOf(patterns).Some? ==> Lookup(TableOf(patterns).value, path) == Lookup(TableOf(reordered).value, path)
  {
    AcceptedWhenApart(patterns);
    AcceptedWhenApart(reordered);
    assert Admissible(patterns) <==> Admissible(reordered);
    if TableOf(patterns).Some? {
      SameAnswers(patterns, reordered, path);
    }
  }

  lemma SameAnswers(patterns: seq<string>, reordered: seq<string>, path: string)
    requires forall p :: p in patterns <==> p in reordered
    requires TableOf(patterns).Some? && TableOf(reordered).Some?
    ensures Lookup(TableOf(patterns).value, path) == Lookup(TableOf(reordered).value, path)
  {
    hide TableOf, Lookup, Matches, Registered, Ascending, ParsePattern;
    if p :| p in patterns && Parses(p) && Matches(RuleOf(p), path) {
      LookupIsExact(patterns, path, p);
      LookupIsExact(reordered, path, p);
      var a, b := Lookup(TableOf(patterns).value, path).value, Lookup(TableOf(reordered).value, path).value;
      forall verb ensures verb in a <==> verb in b {
        SameRegistered(patterns, reordered, RuleOf(p).path, verb);
      }
      AscendingUnique(a, b);
    } else {
      NothingFound(patterns, path);
      NothingFound(reordered, path);
    }
  }

  lemma SameRegistered(patterns: seq<string>, reordered: seq<string>, path: string, verb: string)
    requires forall p :: p in patterns <==> p in reordered
    ensures Registered(patterns, path, verb) <==> Registered(reordered, path, verb)
  {}

  lemma NothingFound(patterns: seq<string>, path: string)
    requires TableOf(patterns).Some? && !exists p | p in patterns :: Parses(p) && Matches(RuleOf(p), path)
    ensures Lookup(TableOf(patterns).value, path) == None
  {
    if patterns != [] {
      hide TableOf, Lookup, Matches, Registered;
      LookupIsExact(patterns, path, patterns[0]);
    }
  }
}
