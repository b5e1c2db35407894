/** Route patterns as they are meant: a method and a list of literal and parameter
    segments. The parser reads exactly their texts, a rule matches exactly the paths that
    filling in the parameters gives, and the table answers with the texts registered. */
module RoutePatterns {
  import opened Text
  import opened Routing
  import opened RouteTable

  datatype Segment = Literal(text: string) | Parameter(name: string)

  /** Characters that no segment may contain, in the path or as part of the syntax. */
  const SEPARATORS := "/%?#\\ \t\r\n"

  predicate Plain(s: string, excluded: string) {
    forall i | 0 <= i < |s| :: s[i] !in excluded
  }

  predicate Proper(g: Segment) {
    match g
    case Literal(text) => text != "" && text != "." && text != ".." && Plain(text, SEPARATORS) && Plain(text, "{}")
    case Parameter(name) => name != "" && Plain(name, SEPARATORS) && Plain(name, "{}.$")
  }

  predicate ProperVerb(verb: string) {
    verb != "" && Plain(verb, " \t\r\n")
  }

  function TextOf(g: Segment): string {
    match g
    case Literal(text) => text
    case Parameter(name) => "{" + name + "}"
  }

  function Texts(segments: seq<Segment>): seq<string> {
    seq(|segments|, i requires 0 <= i < |segments| => TextOf(segments[i]))
  }

  function PathOf(segments: seq<Segment>): string {
    if segments == [] then "/" else "/" + Join(Texts(segments), '/')
  }

  predicate IsPattern(verb: string, segments: seq<Segment>) {
    ProperVerb(verb) && segments != [] && forall i | 0 <= i < |segments| :: Proper(segments[i])
  }

  function Print(verb: string, segments: seq<Segment>): string {
    verb + " " + PathOf(segments)
  }

  predicate HasParameter(segments: seq<Segment>) {
    exists i | 0 <= i < |segments| :: segments[i].Parameter?
  }

  // ---------- the parser reads exactly the texts of patterns ----------

  lemma NotAny(s: string, chars: string)
    ensures !ContainsAny(s, chars) <==> Plain(s, chars)
  {}

  lemma ProperText(g: Segment)
    requires Proper(g)
    ensures var t := TextOf(g); GoodSegment(t) && Plain(t, SEPARATORS) && (IsParameter(t) <==> g.Parameter?)
  {
    var t := TextOf(g);
    match g
    case Literal(text) =>
      NotAny(text, "{}");
      assert text[0] !in "{}";
    case Parameter(name) =>
      NotAny(name, "{}.$");
      assert t[1..|t| - 1] == name && t[..1] == "{" && t[|t| - 1..] == "}";
  }

  /** The segment that a text stands for. */
  function Read(t: string): Segment {
    if IsParameter(t) && |t| > 1 then Parameter(t[1..|t| - 1]) else Literal(t)
  }

  lemma GoodIsProper(t: string)
    requires GoodSegment(t) && Plain(t, SEPARATORS)
    ensures Proper(Read(t)) && TextOf(Read(t)) == t
  {
    if IsParameter(t) {
      assert t[..1] == "{";
      assert t[0] in "{}";
      assert |t| > 1 && HasSuffix(t, "}");
      var name := t[1..|t| - 1];
      NotAny(name, "{}.$");
      assert t[|t| - 1..] == "}";
      assert t == "{" + name + "}";
    } else {
      NotAny(t, "{}");
    }
  }

  lemma {:induction false} JoinPlain(parts: seq<string>, c: char, excluded: string)
    requires parts != [] && c !in excluded
    ensures Plain(Join(parts, c), excluded) <==> forall i | 0 <= i < |parts| :: Plain(parts[i], excluded)
  {
    if |parts| > 1 {
      JoinPlain(parts[1..], c, excluded);
      var a, b := parts[0] + [c], Join(parts[1..], c);
      assert Join(parts, c) == a + b;
      PlainSum(a, b, excluded);
      PlainSum(parts[0], [c], excluded);
      assert parts == [parts[0]] + parts[1..];
    }
  }

  lemma PlainSum(a: string, b: string, excluded: string)
    ensures Plain(a + b, excluded) <==> Plain(a, excluded) && Plain(b, excluded)
  {
    if Plain(a + b, excluded) {
      forall i | 0 <= i < |a| ensures a[i] !in excluded { assert (a + b)[i] == a[i]; }
      forall i | 0 <= i < |b| ensures b[i] !in excluded { assert (a + b)[|a| + i] == b[i]; }
    }
  }

  lemma PlainParts(excluded: string, more: string, s: string)
    ensures Plain(s, excluded + more) <==> Plain(s, excluded) && Plain(s, more)
  {}

  /** The text of a pattern is read back as that pattern. */
  lemma ParsePrinted(verb: string, segments: seq<Segment>)
    requires IsPattern(verb, segments)
    ensures ParsePattern(Print(verb, segments))
            == Some(Route(Rule(PathOf(segments), Texts(segments), HasParameter(segments), []), verb))
  {
    hide Join, Cut, Split, GoodSegment, Plain, ContainsAny, Proper, IsParameter, HasPrefix;
    var texts, path := Texts(segments), PathOf(segments);
    TextsAreGood(segments);
    PrintedPath(texts);
    PrintedVerb(verb);
    CutAt(verb, ' ', path);
    assert Print(verb, segments) == verb + [' '] + path;
    assert path[1..] == Join(texts, '/');
  }

  lemma TextsAreGood(segments: seq<Segment>)
    requires forall i | 0 <= i < |segments| :: Proper(segments[i])
    ensures forall i | 0 <= i < |segments| :: GoodSegment(Texts(segments)[i]) && Plain(Texts(segments)[i], SEPARATORS)
    ensures HasParameter(segments) <==> exists i | 0 <= i < |segments| :: IsParameter(Texts(segments)[i])
  {
    hide Proper, GoodSegment, Plain, IsParameter;
    var texts := Texts(segments);
    forall i | 0 <= i < |texts|
      ensures GoodSegment(texts[i]) && Plain(texts[i], SEPARATORS)
      ensures IsParameter(texts[i]) <==> segments[i].Parameter?
    {
      ProperText(segments[i]);
    }
    if i :| 0 <= i < |segments| && segments[i].Parameter? {
      assert IsParameter(texts[i]);
    }
  }

  lemma PrintedVerb(verb: string)
    requires ProperVerb(verb)
    ensures ' ' !in verb && !ContainsAny(verb, "\t\r\n")
  {
    NotAny(verb, "\t\r\n");
    PlainParts(" ", "\t\r\n", verb);
    assert " " + "\t\r\n" == " \t\r\n";
    NoSpace(verb);
  }

  lemma NoSpace(s: string)
    requires Plain(s, " ")
    ensures ' ' !in s
  {}

  const UNUSABLE := "%?#\\ \t\r\n"

  lemma SeparatorsAre(s: string)
    ensures Plain(s, SEPARATORS) <==> '/' !in s && Plain(s, UNUSABLE)
  {
    assert SEPARATORS == "/" + UNUSABLE;
    PlainParts("/", UNUSABLE, s);
  }

  lemma PrintedPath(texts: seq<string>)
    requires texts != [] && forall i | 0 <= i < |texts| :: Plain(texts[i], SEPARATORS)
    ensures var path := "/" + Join(texts, '/');
            && HasPrefix(path, "/") && !ContainsAny(path, UNUSABLE) && Split(path[1..], '/') == texts
  {
    hide Split, Plain, Join, ContainsAny;
    var path := "/" + Join(texts, '/');
    forall i | 0 <= i < |texts| ensures '/' !in texts[i] && Plain(texts[i], UNUSABLE) {
      SeparatorsAre(texts[i]);
    }
    JoinPlain(texts, '/', UNUSABLE);
    SlashIsPlain();
    PlainSum("/", Join(texts, '/'), UNUSABLE);
    NotAny(path, UNUSABLE);
    SplitJoin(texts, '/');
    assert path[1..] == Join(texts, '/');
    assert path[..1] == "/";
  }

  lemma SlashIsPlain()
    ensures Plain("/", UNUSABLE) && '/' !in UNUSABLE
  {}

  lemma SplitIsPlain(rest: string)
    requires Plain(rest, UNUSABLE)
    ensures var texts := Split(rest, '/');
            Join(texts, '/') == rest && forall i | 0 <= i < |texts| :: Plain(texts[i], SEPARATORS)
  {
    hide Split, Join, Plain;
    var texts := Split(rest, '/');
    SlashIsPlain();
    JoinSplit(rest, '/');
    JoinPlain(texts, '/', UNUSABLE);
    forall i | 0 <= i < |texts| ensures Plain(texts[i], SEPARATORS) {
      SeparatorsAre(texts[i]);
    }
  }

  function ReadAll(texts: seq<string>): seq<Segment> {
    seq(|texts|, i requires 0 <= i < |texts| => Read(texts[i]))
  }

  lemma ReadAllIsProper(texts: seq<string>)
    requires forall i | 0 <= i < |texts| :: GoodSegment(texts[i]) && Plain(texts[i], SEPARATORS)
    ensures Texts(ReadAll(texts)) == texts && forall i | 0 <= i < |texts| :: Proper(ReadAll(texts)[i])
  {
    hide Proper, GoodSegment, Plain, TextOf, Read;
    forall i | 0 <= i < |texts| ensures Proper(Read(texts[i])) && TextOf(Read(texts[i])) == texts[i] {
      GoodIsProper(texts[i]);
    }
  }

  /** Whatever is read is the text of a pattern. */
  lemma PrintParsed(p: string) returns (segments: seq<Segment>)
    requires Parses(p)
    ensures var verb := ParsePattern(p).value.verb; IsPattern(verb, segments) && Print(verb, segments) == p
  {
    hide Cut, Split, Join, GoodSegment, Plain, ContainsAny, Proper, ProperVerb;
    var cut := Cut(p, ' ');
    var rest := cut.after[1..];
    var texts := Split(rest, '/');
    assert cut.after == "/" + rest;
    NotAny(cut.after, UNUSABLE);
    PlainSum("/", rest, UNUSABLE);
    SplitIsPlain(rest);
    ReadAllIsProper(texts);
    segments := ReadAll(texts);
    VerbIsProper(cut.before);
    assert p == cut.before + [' '] + cut.after;
  }

  lemma VerbIsProper(verb: string)
    requires verb != "" && ' ' !in verb && !ContainsAny(verb, "\t\r\n")
    ensures ProperVerb(verb)
  {
    NotAny(verb, "\t\r\n");
    PlainParts(" ", "\t\r\n", verb);
    assert " " + "\t\r\n" == " \t\r\n";
  }

  /** A text is accepted exactly when it is the text of a pattern. */
  lemma ParsesExactly(p: string)
    ensures Parses(p) <==> exists verb, segments :: IsPattern(verb, segments) && Print(verb, segments) == p
  {
    hide ParsePattern, IsPattern, Print;
    if Parses(p) {
      var segments := PrintParsed(p);
    }
    if verb, segments :| IsPattern(verb, segments) && Print(verb, segments) == p {
      ParsePrinted(verb, segments);
    }
  }

  // ---------- a rule matches exactly the paths made from it ----------

  predicate Slashes(s: string) {
    forall i | 0 <= i < |s| :: s[i] == '/'
  }

  /** Values for the segments of a pattern: any nonempty text without a slash for a
      parameter. */
  predicate Fills(values: seq<string>, segments: seq<Segment>) {
    && |values| == |segments|
    && forall i | 0 <= i < |values| ::
         values[i] != "" && '/' !in values[i] && (segments[i].Literal? ==> values[i] == segments[i].text)
  }

  function Around(before: string, values: seq<string>, after: string): string
    requires values != []
  {
    before + Join(values, '/') + after
  }

  predicate IsFilled(path: string, segments: seq<Segment>, before: string, values: seq<string>, after: string) {
    && values != [] && Fills(values, segments) && Slashes(before) && Slashes(after)
    && path == Around(before, values, after)
  }

  lemma {:induction false} TrimLeftParts(s: string) returns (before: string)
    ensures Slashes(before) && s == before + TrimLeft(s, '/')
  {
    before := "";
    if s != "" && s[0] == '/' {
      before := TrimLeftParts(s[1..]);
      before := "/" + before;
      assert s == "/" + s[1..];
    }
  }

  lemma {:induction false} TrimRightParts(s: string) returns (after: string)
    ensures Slashes(after) && s == TrimRight(s, '/') + after
  {
    after := "";
    if s != "" && s[|s| - 1] == '/' {
      after := TrimRightParts(s[..|s| - 1]);
      after := after + "/";
      assert s == s[..|s| - 1] + "/";
    }
  }

  lemma {:induction false} TrimLeftAround(before: string, t: string)
    requires Slashes(before) && t != "" && t[0] != '/'
    ensures TrimLeft(before + t, '/') == t
  {
    if before == "" {
      assert before + t == t;
    } else {
      TrimLeftAround(before[1..], t);
      assert (before + t)[1..] == before[1..] + t;
    }
  }

  lemma {:induction false} TrimRightAround(t: string, after: string)
    requires Slashes(after) && t != "" && t[|t| - 1] != '/'
    ensures TrimRight(t + after, '/') == t
  {
    if after == "" {
      assert t + after == t;
    } else {
      TrimRightAround(t, after[..|after| - 1]);
      assert (t + after)[..|t + after| - 1] == t + after[..|after| - 1];
    }
  }

  /** Trimming takes off exactly the slashes around a text. */
  lemma TrimAround(before: string, t: string, after: string)
    requires Slashes(before) && Slashes(after) && t != "" && t[0] != '/' && t[|t| - 1] != '/'
    ensures Trim(before + t + after, '/') == t
  {
    assert before + t + after == before + (t + after);
    TrimLeftAround(before, t + after);
    TrimRightAround(t, after);
  }

  lemma {:induction false} JoinEnds(values: seq<string>)
    requires values != [] && forall i | 0 <= i < |values| :: values[i] != "" && '/' !in values[i]
    ensures var t := Join(values, '/'); t != "" && t[0] != '/' && t[|t| - 1] != '/'
  {
    if |values| > 1 {
      JoinEnds(values[1..]);
    }
  }

  lemma FitsIsFills(values: seq<string>, segments: seq<Segment>)
    requires forall i | 0 <= i < |segments| :: Proper(segments[i])
    requires forall i | 0 <= i < |values| :: '/' !in values[i]
    ensures AllFit(values, Texts(segments)) <==> Fills(values, segments)
  {
    hide Proper;
    forall i | 0 <= i < |segments| ensures IsParameter(Texts(segments)[i]) <==> segments[i].Parameter? {
      ProperText(segments[i]);
    }
  }

  /** The paths that a list of segments stands for. */
  ghost predicate Takes(segments: seq<Segment>, path: string) {
    if HasParameter(segments) then exists before, values, after :: IsFilled(path, segments, before, values, after)
    else path == PathOf(segments)
  }

  /** A pattern with parameters matches exactly the paths that values for its segments
      give, with any slashes around; one without matches its path alone. */
  lemma MatchesExactly(verb: string, segments: seq<Segment>, path: string)
    requires IsPattern(verb, segments)
    ensures Parses(Print(verb, segments))
    ensures Matches(RuleOf(Print(verb, segments)), path) <==> Takes(segments, path)
  {
    hide Split, Join, ParsePattern, Trim, Fills, AllFit, Texts, Print, PathOf, Proper;
    ParsePrinted(verb, segments);
    if HasParameter(segments) {
      var trimmed := Trim(path, '/');
      var parts := Split(trimmed, '/');
      JoinSplit(trimmed, '/');
      FitsIsFills(parts, segments);
      if AllFit(parts, Texts(segments)) {
        var before := TrimLeftParts(path);
        var after := TrimRightParts(TrimLeft(path, '/'));
        TrimIs(path);
        assert IsFilled(path, segments, before, parts, after);
      }
      if before, values, after :| IsFilled(path, segments, before, values, after) {
        FilledFits(path, segments, before, values, after);
      }
    }
  }

  lemma TrimIs(s: string)
    ensures Trim(s, '/') == TrimRight(TrimLeft(s, '/'), '/')
  {}

  lemma FilledFits(path: string, segments: seq<Segment>, before: string, values: seq<string>, after: string)
    requires IsFilled(path, segments, before, values, after)
    requires forall i | 0 <= i < |segments| :: Proper(segments[i])
    ensures AllFit(Split(Trim(path, '/'), '/'), Texts(segments))
  {
    hide Split, Trim, Join, AllFit;
    JoinEnds(values);
    TrimAround(before, Join(values, '/'), after);
    SplitJoin(values, '/');
    FitsIsFills(values, segments);
  }

  // ---------- the table answers with the texts registered ----------

  /** A pattern is its method, a space, and the path of its rule; neither has a space. */
  lemma PatternIsText(p: string)
    requires Parses(p)
    ensures var route := ParsePattern(p).value;
            p == route.verb + " " + route.rule.path && ' ' !in route.verb && ' ' !in route.rule.path
  {
    NotAny(Cut(p, ' ').after, UNUSABLE);
    assert ' ' in UNUSABLE;
  }

  lemma OneSpace(a: string, b: string, a': string, b': string)
    requires a + " " + b == a' + " " + b' && ' ' !in a && ' ' !in b
    ensures a == a' && b == b'
  {
    var s := a + " " + b;
    assert forall k | 0 <= k < |s| && s[k] == ' ' :: k == |a|;
    assert s[|a'|] == ' ';
    assert a' == s[..|a'|] && b' == s[|a'| + 1..];
    assert a == s[..|a|] && b == s[|a| + 1..];
  }

  lemma RegisteredIsText(patterns: seq<string>, p: string, verb: string)
    requires Parses(p) && forall q | q in patterns :: Parses(q)
    ensures Registered(patterns, RuleOf(p).path, verb) <==> verb + " " + RuleOf(p).path in patterns
  {
    hide ParsePattern;
    var path := RuleOf(p).path;
    if Registered(patterns, path, verb) {
      var q :| q in patterns && Names(q, path, verb);
      PatternIsText(q);
    }
    var text := verb + " " + path;
    if text in patterns {
      PatternIsText(text);
      OneSpace(ParsePattern(text).value.verb, RuleOf(text).path, verb, path);
      assert Names(text, path, verb);
    }
  }

  lemma AllParse(patterns: seq<string>)
    requires TableOf(patterns).Some?
    ensures forall q | q in patterns :: Parses(q)
  {
    hide TableOf, ParsePattern, Matches, Lookup, Registered;
    forall q | q in patterns ensures Parses(q) {
      LookupIsExact(patterns, "", q);
    }
  }

  /** The methods of a path, from the registered texts alone: the pattern that stands for
      the path decides, and a method is allowed exactly when the text of that method with
      the pattern's path was registered. */
  lemma AllowsWhatIsRegistered(patterns: seq<string>, path: string, verb: string, segments: seq<Segment>, other: string)
    requires TableOf(patterns).Some? && IsPattern(verb, segments) && Print(verb, segments) in patterns
    requires Takes(segments, path)
    ensures var found := Lookup(TableOf(patterns).value, path);
            && found.Some? && Ascending(found.value)
            && (other in found.value <==> other + " " + PathOf(segments) in patterns)
  {
    hide TableOf, Lookup, ParsePattern, Matches, Registered, PathOf, Print, Ascending, IsPattern, Takes, HasParameter;
    var p := Print(verb, segments);
    ParsePrinted(verb, segments);
    MatchesExactly(verb, segments, path);
    AllParse(patterns);
    LookupIsExact(patterns, path, p);
    RegisteredIsText(patterns, p, other);
  }

  ghost predicate StandsFor(p: string, verb: string, segments: seq<Segment>, path: string) {
    IsPattern(verb, segments) && p == Print(verb, segments) && Takes(segments, path)
  }

  /** A path is found exactly when a registered text is that of a pattern that stands for it. */
  lemma FoundExactly(patterns: seq<string>, path: string)
    requires TableOf(patterns).Some?
    ensures Lookup(TableOf(patterns).value, path).Some? <==>
              exists p, verb, segments :: p in patterns && StandsFor(p, verb, segments, path)
  {
    hide TableOf, Lookup, ParsePattern, Matches, IsPattern, Print, Takes, Registered;
    if q :| q in patterns && Parses(q) && Matches(RuleOf(q), path) {
      var segments := PrintParsed(q);
      MatchesExactly(ParsePattern(q).value.verb, segments, path);
      assert StandsFor(q, ParsePattern(q).value.verb, segments, path);
      LookupIsExact(patterns, path, q);
    } else {
      NothingFound(patterns, path);
      forall p, verb, segments | p in patterns ensures !StandsFor(p, verb, segments, path) {
        if StandsFor(p, verb, segments, path) {
          MatchesExactly(verb, segments, path);
        }
      }
    }
  }
}
