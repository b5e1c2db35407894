/** Revision preconditions: the two readers of an If-Match header with an optional revision
    in the request body, and the ETag they are given back. */
module IfMatch {
  import opened Text

  const LIMIT := 0x8000_0000_0000_0000

  predicate IsInt64(n: int) {
    -LIMIT <= n < LIMIT
  }

  function ParseInt64(s: string): Option<int> {
    var n := ParseInteger(s);
    if n.Some? && IsInt64(n.value) then n else None
  }

  const PREFIX := "revision-"

  function SignedDecimal(n: int): string {
    if n < 0 then "-" + Decimal(-n) else Decimal(n)
  }

  function Wrap(text: string): string {
    "\"" + PREFIX + text + "\""
  }

  function ETag(version: int): string {
    Wrap(SignedDecimal(version))
  }

  predicate Quoted(header: string) {
    |header| >= 3 && header[0] == '"' && header[|header| - 1] == '"'
  }

  /** The revision an operation request expects. Zero stands for no header. */
  function ExpectedRevision(ifMatch: string, explicit: Option<int>): Option<int> {
    var header :=
      if ifMatch == "" then Some(0)
      else if !Quoted(ifMatch) then None
      else
        var value := ifMatch[1..|ifMatch| - 1];
        if '"' in value || !HasPrefix(value, PREFIX) then None
        else
          var parsed := ParseInt64(value[|PREFIX|..]);
          if parsed.None? || parsed.value < 1 then None else parsed;
    if header.None? then None
    else if explicit.Some? && explicit.value < 1 then None
    else if explicit.Some? && header.value != 0 && explicit.value != header.value then None
    else if explicit.Some? then explicit
    else if header.value > 0 then header
    else None
  }

  /** The version a desired-state request expects. Revision zero creates. */
  function DesiredExpectedVersion(ifMatch: string, explicit: Option<int>): Option<int> {
    if ifMatch != "" && !Quoted(ifMatch) then None
    else
      var value := if ifMatch == "" then "" else ifMatch[1..|ifMatch| - 1];
      if ifMatch != "" && !HasPrefix(value, PREFIX) then None
      else
        var header := if ifMatch == "" then None else ParseInt64(value[|PREFIX|..]);
        if ifMatch != "" && (header.None? || header.value < 0) then None
        else if explicit.Some? && explicit.value < 0 then None
        else if explicit.Some? && header.Some? && explicit.value != header.value then None
        else if explicit.Some? then explicit
        else header
  }

  // ---------- the two readers ----------

  lemma NoQuoteInNumber(s: string)
    requires ParseInteger(s).Some?
    ensures '"' !in s
  {
    assert forall i | 1 <= i < |s| :: s[i] == s[1..][i - 1];
  }

  lemma NoQuoteInValue(value: string)
    requires HasPrefix(value, PREFIX) && ParseInt64(value[|PREFIX|..]).Some?
    ensures '"' !in value
  {
    NoQuoteInNumber(value[|PREFIX|..]);
    assert value == PREFIX + value[|PREFIX|..];
  }

  /** One reader yields a revision exactly when the other does and it is at least one,
      whatever the header and the body. */
  lemma ReadersAgree(ifMatch: string, explicit: Option<int>, v: int)
    ensures ExpectedRevision(ifMatch, explicit) == Some(v)
            <==> DesiredExpectedVersion(ifMatch, explicit) == Some(v) && v >= 1
  {
    hide ParseInt64;
    if Quoted(ifMatch) {
      var value := ifMatch[1..|ifMatch| - 1];
      if HasPrefix(value, PREFIX) && ParseInt64(value[|PREFIX|..]).Some? {
        NoQuoteInValue(value);
      }
    }
  }

  // ---------- what a header means ----------

  /** A way to write a revision: the ETag of that revision, except that zeros, and before
      them a sign, may stand before the number. Only zero can carry a minus. */
  predicate Writes(text: string, v: nat, sign: string, zeros: nat) {
    (sign == "" || sign == "+" || (sign == "-" && v == 0)) && text == sign + (Zeros(zeros) + Decimal(v))
  }

  ghost predicate Means(header: string, v: nat) {
    v < LIMIT && exists text, sign, zeros :: header == Wrap(text) && Writes(text, v, sign, zeros)
  }

  predicate Framed(header: string) {
    Quoted(header) && HasPrefix(header[1..|header| - 1], PREFIX)
  }

  function Body(header: string): string
    requires Framed(header)
  {
    header[1..|header| - 1][|PREFIX|..]
  }

  predicate Reads(header: string, v: int) {
    Framed(header) && ParseInt64(Body(header)) == Some(v)
  }

  lemma WrapBody(text: string)
    requires text != ""
    ensures Framed(Wrap(text)) && Body(Wrap(text)) == text
  {
    assert Wrap(text)[1..|Wrap(text)| - 1] == PREFIX + text;
  }

  lemma BodyWrap(header: string)
    requires Framed(header)
    ensures header == Wrap(Body(header))
  {
    var value := header[1..|header| - 1];
    assert value == PREFIX + Body(header);
    assert header == "\"" + value + "\"";
  }

  lemma SignedDigits(sign: string, digits: string)
    requires digits != "" && Digits(digits) && (sign == "" || sign == "+" || sign == "-")
    ensures var n: int := Value(digits); ParseInteger(sign + digits) == Some(if sign == "-" then -n else n)
  {
    hide Value;
    if sign != "" {
      assert (sign + digits)[1..] == digits;
    } else {
      assert sign + digits == digits && IsDigit(digits[0]);
    }
  }

  lemma WrittenReads(text: string, v: nat, sign: string, zeros: nat)
    requires v < LIMIT && Writes(text, v, sign, zeros)
    ensures text != "" && ParseInt64(text) == Some(v)
  {
    var digits := Zeros(zeros) + Decimal(v);
    ValueZeros(zeros, Decimal(v));
    DecimalValue(v);
    hide ParseInteger, Zeros, Decimal, Value;
    SignedDigits(sign, digits);
  }

  lemma ReadIsWritten(text: string, v: nat) returns (sign: string, zeros: nat)
    requires ParseInt64(text) == Some(v)
    ensures Writes(text, v, sign, zeros)
  {
    hide Zeros, Decimal, Value;
    var signed := text[0] == '+' || text[0] == '-';
    sign := if signed then [text[0]] else "";
    var digits := if signed then text[1..] else text;
    DigitsAreDecimal(digits);
    zeros := |digits| - |Decimal(v)|;
    assert text == sign + digits;
  }

  lemma InRange(text: string)
    requires ParseInt64(text).Some?
    ensures IsInt64(ParseInt64(text).value)
  {}

  lemma ReadsWhatItMeans(header: string, v: nat)
    ensures Reads(header, v) <==> Means(header, v)
  {
    hide ParseInt64, Wrap, Framed, Body, Writes;
    if Reads(header, v) {
      BodyWrap(header);
      var sign, zeros := ReadIsWritten(Body(header), v);
      assert v < LIMIT by { InRange(Body(header)); }
    }
    if Means(header, v) {
      var text, sign, zeros :| header == Wrap(text) && Writes(text, v, sign, zeros);
      WrittenReads(text, v, sign, zeros);
      WrapBody(text);
    }
  }

  /** A version is accepted exactly when the header, if there is one, means it, the body, if
      it has one, says it, and at least one of the two is there. */
  lemma AcceptedVersions(ifMatch: string, explicit: Option<int>, v: int)
    ensures DesiredExpectedVersion(ifMatch, explicit) == Some(v) <==>
            && v >= 0 && (ifMatch != "" || explicit.Some?)
            && (ifMatch != "" ==> Means(ifMatch, v))
            && (explicit.Some? ==> explicit.value == v)
  {
    hide ParseInt64, HasPrefix, Means;
    if v >= 0 {
      ReadsWhatItMeans(ifMatch, v);
    }
  }

  // ---------- round trips ----------

  lemma PrintedReads(n: int)
    requires IsInt64(n)
    ensures ETag(n) != "" && Reads(ETag(n), n)
  {
    hide ParseInteger, Decimal, Value;
    var sign, m := if n < 0 then "-" else "", if n < 0 then -n else n;
    WrapBody(SignedDecimal(n));
    assert SignedDecimal(n) == sign + Decimal(m);
    SignedDigits(sign, Decimal(m));
    DecimalValue(m);
  }

  /** Reading the printed ETag of any version gives it back, from one on, or from zero on
      for a desired state; other versions are refused. A body must repeat it. */
  lemma ETagRoundTrip(n: int, explicit: Option<int>)
    requires IsInt64(n)
    ensures ExpectedRevision(ETag(n), None) == if n >= 1 then Some(n) else None
    ensures DesiredExpectedVersion(ETag(n), None) == if n >= 0 then Some(n) else None
    ensures explicit.Some? ==> DesiredExpectedVersion(ETag(n), explicit) == if n >= 0 && explicit.value == n
            then Some(n) else None
    ensures explicit.Some? ==> ExpectedRevision(ETag(n), explicit) == if n >= 1 && explicit.value == n then Some(n)
            else None
  {
    PrintedReads(n);
    hide ParseInt64, HasPrefix, ETag;
    ReadersAgree(ETag(n), None, n);
    ReadersAgree(ETag(n), explicit, n);
  }
}
