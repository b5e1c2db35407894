/** The `active-binding` file: six lines that name the controller an agent obeys. */
module BindingRecord {
  import opened Text

  const MAGIC := "ocservia-binding-v1"

  datatype Binding = Binding(node: string, controller: string, endpoint: string, key: string, blocked: bool)

  /** The canonical text of a version 7 UUID. */
  predicate NodeId(s: string) {
    && |s| == 36
    && (forall i | 0 <= i < 36 :: if i in {8, 13, 18, 23} then s[i] == '-' else LowerHex(s[i]))
    && s[14] == '7' && s[19] in {'8', '9', 'a', 'b'}
  }

  predicate Valid(b: Binding) {
    NodeId(b.node) && Hex64(b.controller) && Hex64(b.endpoint) && Hex64(b.key)
  }

  // ---------- lines ----------

  /** The characters at which `splitlines` breaks a text. */
  predicate Breaks(c: char) {
    var n := c as int;
    10 <= n <= 13 || 0x1C <= n <= 0x1E || n == 0x85 || n == 0x2028 || n == 0x2029
  }

  predicate OneLine(s: string) {
    forall i | 0 <= i < |s| :: !Breaks(s[i])
  }

  function LineLength(s: string): (n: nat)
    ensures n <= |s| && OneLine(s[..n]) && (n < |s| ==> Breaks(s[n]))
  {
    if s == "" || Breaks(s[0]) then 0 else 1 + LineLength(s[1..])
  }

  function SplitLines(s: string): seq<string>
    decreases |s|
  {
    if s == "" then []
    else
      var n := LineLength(s);
      if n == |s| then [s]
      else
        var next := if s[n] == '\r' && n + 1 < |s| && s[n + 1] == '\n' then n + 2 else n + 1;
        [s[..n]] + SplitLines(s[next..])
  }

  /** The lines, each ended by a newline. */
  function JoinLines(lines: seq<string>): string {
    if lines == [] then "" else lines[0] + "\n" + JoinLines(lines[1..])
  }

  // ---------- the codec ----------

  function Flag(blocked: bool): string {
    if blocked then "blocked" else "clear"
  }

  function Lines(b: Binding): seq<string> {
    [MAGIC, b.node, b.controller, b.endpoint, b.key, Flag(b.blocked)]
  }

  function Encode(b: Binding): string {
    JoinLines(Lines(b))
  }

  function Decode(raw: string): Option<Binding> {
    var f := SplitLines(raw);
    if |f| == 6 && f[0] == MAGIC && (f[5] == Flag(true) || f[5] == Flag(false)) && NodeId(f[1])
       && Hex64(f[2]) && Hex64(f[3]) && Hex64(f[4]) && raw == JoinLines(f)
    then Some(Binding(f[1], f[2], f[3], f[4], f[5] == Flag(true)))
    else None
  }

  lemma LineLengthAt(line: string, rest: string)
    requires OneLine(line)
    ensures LineLength(line + "\n" + rest) == |line|
  {
    var s := line + "\n" + rest;
    assert s[|line|] == '\n';
    assert forall i | 0 <= i < |line| :: s[i] == line[i];
    assert LineLength(s) <= |line| || !Breaks(s[..LineLength(s)][|line|]);
  }

  lemma {:induction false} SplitJoined(lines: seq<string>)
    requires forall i | 0 <= i < |lines| :: OneLine(lines[i])
    ensures SplitLines(JoinLines(lines)) == lines
  {
    if lines != [] {
      var s, rest := JoinLines(lines), JoinLines(lines[1..]);
      LineLengthAt(lines[0], rest);
      SplitJoined(lines[1..]);
      assert s[|lines[0]|] == '\n';
      assert s[..|lines[0]|] == lines[0] && s[|lines[0]| + 1..] == rest;
    }
  }

  lemma LinesAreLines(b: Binding)
    requires Valid(b)
    ensures forall i | 0 <= i < 6 :: OneLine(Lines(b)[i])
  {
    assert OneLine(MAGIC) && OneLine(Flag(b.blocked));
    assert OneLine(b.node) && OneLine(b.controller) && OneLine(b.endpoint) && OneLine(b.key);
  }

  lemma FlagsDiffer()
    ensures Flag(true) != Flag(false)
  {
    assert Flag(true)[0] != Flag(false)[0];
  }

  /** What is printed reads back. */
  lemma DecodeEncode(b: Binding)
    requires Valid(b)
    ensures Decode(Encode(b)) == Some(b)
  {
    hide NodeId, Hex64, Flag;
    LinesAreLines(b);
    SplitJoined(Lines(b));
    FlagsDiffer();
  }

  /** Whatever is accepted is exactly what printing the result gives. */
  lemma EncodeDecode(raw: string)
    requires Decode(raw).Some?
    ensures Valid(Decode(raw).value) && Encode(Decode(raw).value) == raw
  {
    hide NodeId, Hex64, Flag, JoinLines;
    FlagsDiffer();
    var f := SplitLines(raw);
    assert f == Lines(Decode(raw).value);
  }

  lemma EncodeInjective(a: Binding, b: Binding)
    requires Valid(a) && Valid(b) && Encode(a) == Encode(b)
    ensures a == b
  {
    hide Encode, Valid, Decode;
    DecodeEncode(a);
    DecodeEncode(b);
  }
}
