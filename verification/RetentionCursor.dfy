/** The retention coordinator's cursor: each run visits the next operations by name, writes
    down the last one, and starts over at the end. */
module RetentionCursor {
  import opened Text

  const BATCH := 32
  const CURSOR_LIMIT := 128

  // ---------- the cursor file ----------

  predicate IsSpace(c: char) {
    var n := c as int;
    9 <= n <= 13 || 28 <= n <= 32 || n in {0x85, 0xA0, 0x1680, 0x2028, 0x2029, 0x202F, 0x205F, 0x3000}
        || 0x2000 <= n <= 0x200A
  }

  function StripRight(s: string): (t: string)
    ensures |t| <= |s| && (t == s <==> s == "" || !IsSpace(s[|s| - 1]))
  {
    if s != "" && IsSpace(s[|s| - 1]) then StripRight(s[..|s| - 1]) else s
  }

  function StripLeft(s: string): (t: string)
    ensures |t| <= |s| && (t == s <==> s == "" || !IsSpace(s[0]))
  {
    if s != "" && IsSpace(s[0]) then StripLeft(s[1..]) else s
  }

  function Strip(s: string): string {
    StripLeft(StripRight(s))
  }

  /** The cursor; none if the file is too large to be trusted. */
  function ReadCursor(file: Option<string>): Option<string> {
    if file.None? then Some("")
    else if Utf8Length(file.value) > CURSOR_LIMIT then None
    else Some(Strip(file.value))
  }

  function CursorFile(name: string): Option<string> {
    Some(name + "\n")
  }

  predicate Short(name: string) {
    Utf8Length(name) < CURSOR_LIMIT
  }

  predicate Trimmed(name: string) {
    name == "" || (!IsSpace(name[0]) && !IsSpace(name[|name| - 1]))
  }

  /** A name that comes back from the cursor file as it was written. */
  predicate Faithful(name: string) {
    Short(name) && Trimmed(name)
  }

  lemma {:induction false} Utf8Append(s: string, t: string)
    ensures Utf8Length(s + t) == Utf8Length(s) + Utf8Length(t)
  {
    if s == "" {
      assert s + t == t;
    } else {
      Utf8Append(s[1..], t);
      assert (s + t)[1..] == s[1..] + t;
    }
  }

  lemma CursorReads(name: string)
    ensures ReadCursor(CursorFile(name)) == if Short(name) then Some(Strip(name)) else None
  {
    Utf8Append(name, "\n");
    assert Utf8Length("\n") == 1;
    var line := name + "\n";
    assert IsSpace('\n') && line[..|line| - 1] == name;
    assert StripRight(line) == StripRight(name);
  }

  lemma StripKeeps(name: string)
    ensures Strip(name) == name <==> Trimmed(name)
  {}

  lemma CursorRoundTrip(name: string)
    ensures ReadCursor(CursorFile(name)) == Some(name) <==> Faithful(name)
  {
    CursorReads(name);
    StripKeeps(name);
  }

  /** The text of a UUID, as operation directories are named. */
  predicate OperationName(name: string) {
    |name| == 36 && forall i | 0 <= i < |name| :: name[i] == '-' || '0' <= name[i] <= '9' || 'a' <= name[i] <= 'f'
  }

  lemma {:induction false} AsciiLength(s: string)
    requires forall i | 0 <= i < |s| :: s[i] as int < 0x80
    ensures Utf8Length(s) == |s|
  {
    if s != "" {
      AsciiLength(s[1..]);
    }
  }

  lemma OperationNamesAreFaithful(name: string)
    requires OperationName(name)
    ensures Faithful(name)
  {
    AsciiLength(name);
  }

  // ---------- one run ----------

  /** How handling one operation ends: well, with an error that is collected, or with one
      that ends the run. */
  datatype Fate = Fine | Caught | Uncaught

  datatype Turn = Turn(visited: seq<string>, file: Option<string>)

  /** How many names are not after the cursor. */
  function Position(names: seq<string>, cursor: string): (p: nat)
    ensures p <= |names|
  {
    if names == [] || Less(cursor, names[0]) then 0 else 1 + Position(names[1..], cursor)
  }

  function Start(n: nat, p: nat): nat {
    if p >= n then 0 else p
  }

  function End(n: nat, p: nat): (e: nat)
    ensures Start(n, p) <= e <= n && (n > 0 ==> Start(n, p) < e)
  {
    if Start(n, p) + BATCH < n then Start(n, p) + BATCH else n
  }

  function Candidates(names: seq<string>, cursor: string): seq<string> {
    var p := Position(names, cursor);
    names[Start(|names|, p)..End(|names|, p)]
  }

  /** Up to and including the first one that ends the run. */
  function Visited(candidates: seq<string>, fate: string -> Fate): seq<string> {
    if candidates == [] then []
    else if fate(candidates[0]) == Uncaught then [candidates[0]]
    else [candidates[0]] + Visited(candidates[1..], fate)
  }

  predicate Survives(candidates: seq<string>, fate: string -> Fate) {
    forall i | 0 <= i < |candidates| :: fate(candidates[i]) != Uncaught
  }

  function RunOnce(names: seq<string>, fate: string -> Fate, file: Option<string>): Turn {
    var cursor := ReadCursor(file);
    if cursor.None? then Turn([], file)
    else
      var candidates := Candidates(names, cursor.value);
      Turn(Visited(candidates, fate),
           if candidates != [] && Survives(candidates, fate) then CursorFile(candidates[|candidates| - 1]) else file)
  }

  lemma {:induction false} AfterCursor(names: seq<string>, cursor: string, i: nat)
    requires Ascending(names) && i < |names|
    ensures i >= Position(names, cursor) <==> Less(cursor, names[i])
  {
    if Less(cursor, names[0]) {
      if i > 0 {
        LessTransitive(cursor, names[0], names[i]);
      }
    } else if i > 0 {
      AfterCursor(names[1..], cursor, i - 1);
    }
  }

  lemma {:induction false} VisitedPrefix(candidates: seq<string>, i: nat, fate: string -> Fate)
    requires i <= |candidates| && Survives(candidates[..i], fate)
    ensures Visited(candidates, fate) == candidates[..i] + Visited(candidates[i..], fate)
  {
    if i > 0 {
      assert candidates[..i][0] == candidates[0];
      assert candidates[1..][..i - 1] == candidates[..i][1..];
      VisitedPrefix(candidates[1..], i - 1, fate);
      assert candidates[1..][i - 1..] == candidates[i..];
      assert candidates[..i] == [candidates[0]] + candidates[1..][..i - 1];
    } else {
      assert candidates[0..] == candidates;
    }
  }

  /** The coordinator, between two runs. */
  class Coordinator {
    var file: Option<string>

    constructor (file: Option<string>)
      ensures this.file == file
    {
      this.file := file;
    }

    method Choose(names: seq<string>, cursor: string) returns (candidates: seq<string>)
      requires Ascending(names)
      ensures candidates == Candidates(names, cursor)
    {
      ghost var p := Position(names, cursor);
      candidates := [];
      for i := 0 to |names|
        invariant candidates == if i <= p then [] else names[p..i]
      {
        AfterCursor(names, cursor, i);
        if Less(cursor, names[i]) {
          candidates := candidates + [names[i]];
        }
      }
      if |candidates| > BATCH {
        candidates := candidates[..BATCH];
      }
      if candidates == [] {
        candidates := if |names| > BATCH then names[..BATCH] else names;
      }
    }

    /** Visits the candidates in turn. The cursor moves if no error ended the run. */
    method Run(names: seq<string>, fate: string -> Fate) returns (visited: seq<string>, ok: bool)
      requires Ascending(names)
      modifies this
      ensures Turn(visited, file) == RunOnce(names, fate, old(file))
      ensures ok <==> ReadCursor(old(file)).Some? && forall i | 0 <= i < |visited| :: fate(visited[i]) == Fine
    {
      hide Candidates, ReadCursor;
      visited, ok := [], true;
      var cursor := ReadCursor(file);
      if cursor.None? {
        return [], false;
      }
      var candidates := Choose(names, cursor.value);
      assert candidates[..|candidates|] == candidates;
      for i := 0 to |candidates|
        invariant visited == candidates[..i] && Survives(visited, fate)
        invariant ok <==> forall k | 0 <= k < |visited| :: fate(visited[k]) == Fine
      {
        visited := visited + [candidates[i]];
        ok := ok && fate(candidates[i]) == Fine;
        if fate(candidates[i]) == Uncaught {
          VisitedPrefix(candidates, i, fate);
          assert visited[i] == candidates[i];
          return;
        }
      }
      VisitedPrefix(candidates, |candidates|, fate);
      if candidates != [] {
        file := CursorFile(candidates[|candidates| - 1]);
      }
    }
  }
}
