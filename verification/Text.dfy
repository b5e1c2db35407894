/** Text as the programs compare and print it: the byte order of strings, and decimal
    numbers with and without leading zeros. */
module Text {

  datatype Option<+T> = None | Some(value: T)

  // ---------- order ----------

  /** The order of Go and Python strings. */
  predicate Less(a: string, b: string) {
    if b == "" then false
    else if a == "" then true
    else if a[0] != b[0] then a[0] < b[0]
    else Less(a[1..], b[1..])
  }

  lemma {:induction false} LessIrreflexive(a: string)
    ensures !Less(a, a)
  {
    if a != "" {
      LessIrreflexive(a[1..]);
    }
  }

  lemma {:induction false} LessTransitive(a: string, b: string, c: string)
    requires Less(a, b) && Less(b, c)
    ensures Less(a, c)
  {
    if a != "" && a[0] == b[0] == c[0] {
      LessTransitive(a[1..], b[1..], c[1..]);
    }
  }

  lemma {:induction false} LessTotal(a: string, b: string)
    ensures Less(a, b) || a == b || Less(b, a)
  {
    if a != "" && b != "" && a[0] == b[0] {
      LessTotal(a[1..], b[1..]);
      assert a == [a[0]] + a[1..] && b == [b[0]] + b[1..];
    }
  }

  /** Sorted, and therefore without duplicates. */
  predicate Ascending(s: seq<string>) {
    forall i, j | 0 <= i < j < |s| :: Less(s[i], s[j])
  }

  /** How many bytes the text takes. */
  function Utf8Length(s: string): nat {
    if s == "" then 0
    else
      var n := s[0] as int;
      Utf8Length(s[1..]) + if n < 0x80 then 1 else if n < 0x800 then 2 else if n < 0x10000 then 3 else 4
  }

  // ---------- cutting ----------

  predicate HasPrefix(s: string, prefix: string) {
    |s| >= |prefix| && s[..|prefix|] == prefix
  }

  predicate HasSuffix(s: string, suffix: string) {
    |s| >= |suffix| && s[|s| - |suffix|..] == suffix
  }

  /** What is before and after the first `c`, if there is one. */
  datatype Pieces = Pieces(before: string, after: string, found: bool)

  function Cut(s: string, c: char): (p: Pieces)
    ensures c !in p.before && (p.found <==> c in s)
    ensures s == if p.found then p.before + [c] + p.after else p.before
    ensures !p.found ==> p.after == ""
  {
    if s == "" then Pieces("", "", false)
    else if s[0] == c then Pieces("", s[1..], true)
    else
      var p := Cut(s[1..], c);
      p.(before := [s[0]] + p.before)
  }

  lemma CutAt(a: string, c: char, b: string)
    requires c !in a
    ensures Cut(a + [c] + b, c) == Pieces(a, b, true)
  {
    var s := a + [c] + b;
    var p := Cut(s, c);
    assert s[|a|] == c;
    assert s[|p.before|] == c;
    assert |p.before| == |a|;
    assert p.before == s[..|a|] == a;
    assert p.after == s[|a| + 1..] == b;
  }

  // ---------- decimal numbers ----------

  predicate IsDigit(c: char) {
    '0' <= c <= '9'
  }

  predicate Digits(s: string) {
    forall i | 0 <= i < |s| :: IsDigit(s[i])
  }

  predicate LowerHex(c: char) {
    IsDigit(c) || 'a' <= c <= 'f'
  }

  /** 32 bytes in lower-case hexadecimal. */
  predicate Hex64(s: string) {
    |s| == 64 && forall i | 0 <= i < |s| :: LowerHex(s[i])
  }

  function DigitValue(c: char): nat
    requires IsDigit(c)
  {
    c as int - '0' as int
  }

  function DigitChar(d: nat): (c: char)
    requires d < 10
    ensures IsDigit(c) && DigitValue(c) == d
  {
    (d + '0' as int) as char
  }

  function Value(s: string): nat
    requires Digits(s)
  {
    if s == "" then 0 else 10 * Value(s[..|s| - 1]) + DigitValue(s[|s| - 1])
  }

  /** A decimal number with an optional sign. */
  function ParseInteger(s: string): Option<int> {
    var signed := s != "" && (s[0] == '+' || s[0] == '-');
    var digits := if signed then s[1..] else s;
    if digits == "" || !Digits(digits) then None
    else
      var v: int := Value(digits);
      Some(if signed && s[0] == '-' then -v else v)
  }

  /** Decimal, without leading zeros. */
  function Decimal(n: nat): (s: string)
    ensures s != "" && Digits(s)
  {
    if n < 10 then [DigitChar(n)] else Decimal(n / 10) + [DigitChar(n % 10)]
  }

  function Zeros(n: nat): (s: string)
    ensures |s| == n && Digits(s)
  {
    if n == 0 then "" else Zeros(n - 1) + "0"
  }

  function Filled(s: string, width: nat): string {
    if |s| >= width then s else Zeros(width - |s|) + s
  }

  /** Decimal, filled with zeros to at least `width` characters. */
  function ZeroPadded(n: nat, width: nat): (s: string)
    ensures |s| >= width && Digits(s)
  {
    Filled(Decimal(n), width)
  }

  function Pow10(k: nat): (p: nat)
    ensures p > 0
  {
    if k == 0 then 1 else 10 * Pow10(k - 1)
  }

  lemma {:induction false} DecimalValue(n: nat)
    ensures Value(Decimal(n)) == n
  {
    if n >= 10 {
      DecimalValue(n / 10);
      assert Decimal(n)[..|Decimal(n)| - 1] == Decimal(n / 10);
    }
  }

  /** Printing decimal numbers is one to one. */
  lemma DecimalInjective(m: nat, n: nat)
    requires Decimal(m) == Decimal(n)
    ensures m == n
  {
    DecimalValue(m);
    DecimalValue(n);
  }

  lemma {:induction false} DecimalLength(n: nat, k: nat)
    requires k > 0
    ensures |Decimal(n)| <= k <==> n < Pow10(k)
  {
    if k == 1 {
      assert Pow10(1) == 10;
    } else if n >= 10 {
      DecimalLength(n / 10, k - 1);
    } else {
      PowAtLeastTen(k);
    }
  }

  lemma {:induction false} PowAtLeastTen(k: nat)
    requires k > 0
    ensures Pow10(k) >= 10
  {
    if k > 1 {
      PowAtLeastTen(k - 1);
    }
  }

  lemma {:induction false} ValueZeros(k: nat, s: string)
    requires Digits(s)
    ensures Digits(Zeros(k) + s) && Value(Zeros(k) + s) == Value(s)
  {
    var z := Zeros(k) + s;
    if s != "" {
      ValueZeros(k, s[..|s| - 1]);
      assert z[..|z| - 1] == Zeros(k) + s[..|s| - 1];
    } else if k > 0 {
      ValueZeros(k - 1, "");
      assert z[..|z| - 1] == Zeros(k - 1) + "";
    }
  }

  lemma {:induction false} FilledValue(d: string, width: nat)
    requires Digits(d)
    ensures Digits(Filled(d, width)) && Value(Filled(d, width)) == Value(d)
  {
    if |d| < width {
      ValueZeros(width - |d|, d);
    }
  }

  lemma PaddedValue(n: nat, width: nat)
    ensures Value(ZeroPadded(n, width)) == n
  {
    FilledValue(Decimal(n), width);
    DecimalValue(n);
  }

  /** A text of digits is the decimal of its value behind some zeros. */
  lemma {:induction false} DigitsAreDecimal(d: string)
    requires d != "" && Digits(d)
    ensures |d| >= |Decimal(Value(d))| && d == Zeros(|d| - |Decimal(Value(d))|) + Decimal(Value(d))
  {
    var init, last := d[..|d| - 1], DigitValue(d[|d| - 1]);
    assert d == init + [DigitChar(last)];
    if init != "" {
      DigitsAreDecimal(init);
      var k := |init| - |Decimal(Value(init))|;
      if Value(init) == 0 {
        assert init == Zeros(k) + "0" == Zeros(k + 1);
      } else {
        assert Decimal(Value(d)) == Decimal(Value(init)) + [DigitChar(last)];
      }
    }
  }

  lemma {:induction false} ValueHead(s: string)
    requires Digits(s) && s != ""
    ensures Value(s) == DigitValue(s[0]) * Pow10(|s| - 1) + Value(s[1..])
    ensures Value(s[1..]) < Pow10(|s| - 1)
  {
    if |s| > 1 {
      var init, last := s[..|s| - 1], DigitValue(s[|s| - 1]);
      ValueHead(init);
      assert s[1..][..|s| - 2] == init[1..];
      TimesTen(DigitValue(s[0]), Pow10(|s| - 2), Value(init[1..]), last);
    }
  }

  lemma TimesTen(h: nat, p: nat, rest: nat, last: nat)
    ensures 10 * (h * p + rest) + last == h * (10 * p) + (10 * rest + last)
  {
    assert 10 * (h * p) == h * (10 * p);
  }

  /** Numbers of the same width sort as text the way they sort as numbers. */
  lemma {:induction false} LessIsNumeric(a: string, b: string)
    requires Digits(a) && Digits(b) && |a| == |b|
    ensures Less(a, b) <==> Value(a) < Value(b)
  {
    if a != "" {
      ValueHead(a);
      ValueHead(b);
      LessIsNumeric(a[1..], b[1..]);
      CompareHeads(DigitValue(a[0]), DigitValue(b[0]), Pow10(|a| - 1), Value(a[1..]), Value(b[1..]));
    }
  }

  lemma CompareHeads(x: nat, y: nat, p: nat, u: nat, v: nat)
    requires u < p && v < p
    ensures x * p + u < y * p + v <==> x < y || (x == y && u < v)
  {
    if x < y {
      assert (x + 1) * p <= y * p;
    } else if y < x {
      assert (y + 1) * p <= x * p;
    }
  }

  /** The 20-digit keys of the audit trail: every 64-bit number fits, different numbers
      give different keys, and the keys sort like the numbers. */
  lemma TwentyDigitKeys(m: nat, n: nat)
    requires m < 0x1_0000_0000_0000_0000 && n < 0x1_0000_0000_0000_0000
    ensures |ZeroPadded(m, 20)| == 20
    ensures ZeroPadded(m, 20) == ZeroPadded(n, 20) <==> m == n
    ensures Less(ZeroPadded(m, 20), ZeroPadded(n, 20)) <==> m < n
  {
    Pow10Of20();
    DecimalLength(m, 20);
    DecimalLength(n, 20);
    PaddedValue(m, 20);
    PaddedValue(n, 20);
    LessIsNumeric(ZeroPadded(m, 20), ZeroPadded(n, 20));
  }

  lemma Pow10Of20()
    ensures Pow10(20) == 100_000_000_000_000_000_000
  {
    Pow10Add(10, 10);
    Pow10Add(5, 5);
    assert Pow10(5) == 100_000;
  }

  lemma {:induction false} Pow10Add(a: nat, b: nat)
    ensures Pow10(a + b) == Pow10(a) * Pow10(b)
  {
    if a > 0 {
      Pow10Add(a - 1, b);
      assert 10 * (Pow10(a - 1) * Pow10(b)) == (10 * Pow10(a - 1)) * Pow10(b);
    }
  }
}
