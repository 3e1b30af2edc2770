/** The JavaScript string facilities the application relies on, written out
    over `seq<char>`: the `\s` character class and `trim()`, the `\D`
    replacement that keeps ASCII digits, `split` on one character and on
    `/\s+/`, `join`, `String(n)` for non-negative integers, `parseInt` and `padStart`. */
module Text {
  import opened Wrappers

  /** The characters JavaScript's `\s` and `trim()` treat as white space:
      the WhiteSpace and LineTerminator productions of ECMAScript. */
  predicate IsWhitespace(c: char) {
    c == ' ' || c == '\t' || c == '\n' || c == '\r' || c == '\U{B}' || c == '\U{C}'
    || c == '\U{A0}' || c == '\U{1680}' || ('\U{2000}' <= c <= '\U{200A}')
    || c == '\U{2028}' || c == '\U{2029}' || c == '\U{202F}' || c == '\U{205F}'
    || c == '\U{3000}' || c == '\U{FEFF}'
  }

  /** `\d`: the ASCII digits only. */
  predicate IsDigit(c: char) {
    '0' <= c <= '9'
  }

  predicate AllWhitespace(s: string) {
    forall i :: 0 <= i < |s| ==> IsWhitespace(s[i])
  }

  predicate AllDigits(s: string) {
    forall i :: 0 <= i < |s| ==> IsDigit(s[i])
  }

  predicate HasWhitespace(s: string) {
    exists i :: 0 <= i < |s| && IsWhitespace(s[i])
  }

  /** `s.trimStart()` */
  function TrimStart(s: string): (r: string)
    ensures |r| <= |s| && forall i :: 0 <= i < |r| ==> r[i] == s[|s| - |r| + i]
    ensures AllWhitespace(s[..|s| - |r|])
    ensures r != [] ==> !IsWhitespace(r[0])
  {
    if s == [] || !IsWhitespace(s[0]) then s
    else
      var r := TrimStart(s[1..]);
      assert s[1..][..|s| - 1 - |r|] == s[1..|s| - |r|];
      r
  }

  /** `s.trimEnd()` */
  function TrimEnd(s: string): (r: string)
    ensures |r| <= |s| && r == s[..|r|]
    ensures AllWhitespace(s[|r|..])
    ensures r != [] ==> !IsWhitespace(r[|r| - 1])
  {
    if s == [] || !IsWhitespace(s[|s| - 1]) then s
    else
      var r := TrimEnd(s[..|s| - 1]);
      r
  }

  /** `s.trim()`: the white space at both ends removed. */
  function Trim(s: string): (r: string)
    ensures |r| <= |s|
    ensures r != [] ==> !IsWhitespace(r[0]) && !IsWhitespace(r[|r| - 1])
  {
    TrimEnd(TrimStart(s))
  }

  /** `s.trim() === ''` holds exactly for the strings made of white space only. */
  lemma TrimEmptyIff(s: string)
    ensures Trim(s) == [] <==> AllWhitespace(s)
  {
    var a := TrimStart(s);
    var i := |s| - |a|;
    if Trim(s) == [] {
      assert AllWhitespace(a[0..]);
      assert a == [];
      forall k | 0 <= k < |s| ensures IsWhitespace(s[k]) {
        assert s[..i][k] == s[k];
      }
    } else {
      var r := Trim(s);
      assert r[0] == a[0] == s[i];
    }
  }

  /** Trimming a string that has no white space at either end changes nothing. */
  lemma TrimOfTrimmed(s: string)
    requires s != [] ==> !IsWhitespace(s[0]) && !IsWhitespace(s[|s| - 1])
    ensures Trim(s) == s
  {
  }

  /** `s.replace(/\D/g, '')`: the ASCII digits of `s`, in order. */
  function Digits(s: string): (r: string)
    ensures AllDigits(r) && |r| <= |s|
  {
    if s == [] then []
    else (if IsDigit(s[0]) then [s[0]] else []) + Digits(s[1..])
  }

  lemma {:induction false} DigitsAppend(a: string, b: string)
    ensures Digits(a + b) == Digits(a) + Digits(b)
  {
    if a == [] {
      assert a + b == b;
    } else {
      var ab := a + b;
      assert ab[0] == a[0] && ab[1..] == a[1..] + b;
      DigitsAppend(a[1..], b);
      var h := if IsDigit(a[0]) then [a[0]] else [];
      assert Digits(ab) == h + Digits(a[1..] + b);
      assert Digits(a) == h + Digits(a[1..]);
    }
  }

  lemma {:induction false} DigitsOfDigits(s: string)
    requires AllDigits(s)
    ensures Digits(s) == s
  {
    if s != [] {
      DigitsOfDigits(s[1..]);
    }
  }

  /** Number of maximal runs of white space in `s`, counted at the end of
      each run. */
  function WhitespaceRuns(s: string): nat
  {
    if s == [] then 0
    else (if IsWhitespace(s[0]) && (|s| == 1 || !IsWhitespace(s[1])) then 1 else 0)
         + WhitespaceRuns(s[1..])
  }

  /** `s.split(/\s+/).length`: each maximal run of white space is one match
      of the separator, and n matches cut the string into n + 1 pieces. */
  function SplitOnWhitespaceCount(s: string): nat
  {
    1 + WhitespaceRuns(s)
  }

  /** The count of `/\s+/` pieces exceeds one exactly when the string holds
      some white space. */
  lemma {:induction false} WhitespaceRunsPositive(s: string)
    ensures WhitespaceRuns(s) > 0 <==> HasWhitespace(s)
  {
    if s != [] {
      WhitespaceRunsPositive(s[1..]);
      if HasWhitespace(s[1..]) {
        var i :| 0 <= i < |s[1..]| && IsWhitespace(s[1..][i]);
        assert IsWhitespace(s[i + 1]);
      }
      if HasWhitespace(s) && !IsWhitespace(s[0]) {
        var i :| 0 <= i < |s| && IsWhitespace(s[i]);
        assert s[1..][i - 1] == s[i];
      }
    }
  }

  /** `s.split(sep)` for a one-character separator: the pieces between the
      occurrences of `sep`, empty pieces included. */
  function Split(s: string, sep: char): (r: seq<string>)
    ensures |r| >= 1
  {
    if s == [] then [""]
    else
      var rest := Split(s[1..], sep);
      if s[0] == sep then [""] + rest else [[s[0]] + rest[0]] + rest[1..]
  }

  /** `xs.join(sep)` */
  function Join(xs: seq<string>, sep: char): string
  {
    if |xs| == 0 then ""
    else if |xs| == 1 then xs[0]
    else xs[0] + [sep] + Join(xs[1..], sep)
  }

  lemma {:induction false} SplitPrefix(a: string, b: string, sep: char)
    requires sep !in a
    ensures Split(a + b, sep) == [a + Split(b, sep)[0]] + Split(b, sep)[1..]
  {
    if a != [] {
      assert (a + b)[1..] == a[1..] + b;
      SplitPrefix(a[1..], b, sep);
      assert [a[0]] + (a[1..] + Split(b, sep)[0]) == a + Split(b, sep)[0];
    } else {
      assert a + b == b;
      assert a + Split(b, sep)[0] == Split(b, sep)[0];
    }
  }

  /** Splitting a joined list on the separator gives the list back, as long
      as the list is not empty and no element contains the separator. */
  lemma {:induction false} SplitJoin(xs: seq<string>, sep: char)
    requires |xs| >= 1
    requires forall k :: 0 <= k < |xs| ==> sep !in xs[k]
    ensures Split(Join(xs, sep), sep) == xs
  {
    if |xs| == 1 {
      SplitPrefix(xs[0], "", sep);
      assert xs[0] + "" == xs[0];
    } else {
      SplitJoin(xs[1..], sep);
      var b := [sep] + Join(xs[1..], sep);
      assert xs[0] + [sep] + Join(xs[1..], sep) == xs[0] + b;
      SplitPrefix(xs[0], b, sep);
      assert b[1..] == Join(xs[1..], sep);
      assert Split(b, sep) == [""] + xs[1..];
      assert xs[0] + "" == xs[0];
    }
  }

  /** `.map((m) => m.trim())` */
  function TrimAll(xs: seq<string>): (r: seq<string>)
    ensures |r| == |xs| && forall k :: 0 <= k < |xs| ==> r[k] == Trim(xs[k])
  {
    seq(|xs|, k requires 0 <= k < |xs| => Trim(xs[k]))
  }

  function DigitChar(d: nat): (c: char)
    requires d < 10
    ensures IsDigit(c)
  {
    ['0', '1', '2', '3', '4', '5', '6', '7', '8', '9'][d]
  }

  function DigitValue(c: char): (d: nat)
    requires IsDigit(c)
    ensures d < 10
  {
    (c as int - '0' as int) as nat
  }

  /** `String(n)` for a non-negative integer: its decimal digits, without
      leading zeros. */
  function DecimalString(n: nat): (r: string)
    ensures 1 <= |r| && AllDigits(r)
  {
    if n < 10 then [DigitChar(n)] else DecimalString(n / 10) + [DigitChar(n % 10)]
  }

  /** The number a string of decimal digits denotes. */
  function DecimalValue(s: string): nat
    requires AllDigits(s)
  {
    if s == [] then 0 else DecimalValue(s[..|s| - 1]) * 10 + DigitValue(s[|s| - 1])
  }

  function Pow10(k: nat): (p: nat)
    ensures p >= 1
  {
    if k == 0 then 1 else 10 * Pow10(k - 1)
  }

  /** Reading the decimal representation back gives the number, and the
      representation has at most k digits exactly when the number is below
      10 to the k. */
  lemma DecimalRoundTrip(n: nat)
    ensures DecimalValue(DecimalString(n)) == n
    ensures forall k: nat :: k >= 1 ==> (|DecimalString(n)| <= k <==> n < Pow10(k))
  {
    DecimalValueOfString(n);
    DecimalLength(n);
  }

  lemma {:induction false} DecimalValueOfString(n: nat)
    ensures DecimalValue(DecimalString(n)) == n
  {
    var s := DecimalString(n);
    if n < 10 {
      assert DigitValue(DigitChar(n)) == n;
      assert s[..0] == [];
    } else {
      DecimalValueOfString(n / 10);
      assert s[..|s| - 1] == DecimalString(n / 10);
      assert DigitValue(DigitChar(n % 10)) == n % 10;
    }
  }

  lemma {:induction false} DecimalLength(n: nat)
    ensures forall k: nat :: k >= 1 ==> (|DecimalString(n)| <= k <==> n < Pow10(k))
  {
    var s := DecimalString(n);
    if n < 10 {
      forall k: nat | k >= 1 ensures |s| <= k <==> n < Pow10(k) {
        Pow10Monotone(1, k);
      }
    } else {
      DecimalLength(n / 10);
      forall k: nat | k >= 1 ensures |s| <= k <==> n < Pow10(k) {
        if k == 1 {
          assert |DecimalString(n / 10)| >= 1;
        } else {
          assert |s| <= k <==> |DecimalString(n / 10)| <= k - 1;
          assert n / 10 < Pow10(k - 1) <==> n < Pow10(k);
        }
      }
    }
  }

  lemma {:induction false} Pow10Monotone(j: nat, k: nat)
    requires j <= k
    ensures Pow10(j) <= Pow10(k)
  {
    if j < k {
      Pow10Monotone(j, k - 1);
    }
  }

  /** Leading zeros do not change the value of a digit string. */
  lemma {:induction false} DecimalValueLeadingZeros(z: nat, s: string)
    requires AllDigits(s)
    ensures AllDigits(Repeat('0', z) + s)
    ensures DecimalValue(Repeat('0', z) + s) == DecimalValue(s)
  {
    if s == [] {
      ZerosValue(z);
      assert Repeat('0', z) + s == Repeat('0', z);
    } else {
      var t := Repeat('0', z) + s;
      assert t[..|t| - 1] == Repeat('0', z) + s[..|s| - 1];
      DecimalValueLeadingZeros(z, s[..|s| - 1]);
    }
  }

  lemma {:induction false} ZerosValue(z: nat)
    ensures AllDigits(Repeat('0', z)) && DecimalValue(Repeat('0', z)) == 0
  {
    if z > 0 {
      ZerosValue(z - 1);
      assert Repeat('0', z)[..z - 1] == Repeat('0', z - 1);
    }
  }

  function Repeat(c: char, n: nat): (r: string)
    ensures |r| == n && forall k :: 0 <= k < n ==> r[k] == c
  {
    if n == 0 then [] else [c] + Repeat(c, n - 1)
  }

  /** `s.padStart(width, c)` */
  function PadStart(s: string, width: nat, c: char): (r: string)
    ensures |r| == if |s| >= width then |s| else width
    ensures r[|r| - |s|..] == s
    ensures forall k :: 0 <= k < |r| - |s| ==> r[k] == c
  {
    if |s| >= width then s else Repeat(c, width - |s|) + s
  }

  /** `String(n).padStart(width, '0')` keeps the value and only adds zeros. */
  lemma ZeroPadValue(n: nat, width: nat)
    ensures AllDigits(PadStart(DecimalString(n), width, '0'))
    ensures DecimalValue(PadStart(DecimalString(n), width, '0')) == n
  {
    DecimalValueOfString(n);
    PadValue(DecimalString(n), width);
  }

  /** Zeros put in front of digits keep their value. */
  lemma PadValue(s: string, width: nat)
    requires AllDigits(s)
    ensures AllDigits(PadStart(s, width, '0')) && DecimalValue(PadStart(s, width, '0')) == DecimalValue(s)
  {
    if |s| < width {
      DecimalValueLeadingZeros(width - |s|, s);
    }
  }

  /** A digit of base 10, or of base 16 in either case. */
  predicate IsRadixDigit(c: char, radix: nat) {
    IsDigit(c) || (radix == 16 && ('a' <= c <= 'f' || 'A' <= c <= 'F'))
  }

  function RadixDigitValue(c: char, radix: nat): (d: nat)
    requires IsRadixDigit(c, radix)
    ensures d < if radix == 16 then 16 else 10
  {
    if IsDigit(c) then DigitValue(c)
    else if 'a' <= c <= 'f' then (c as int - 'a' as int + 10) as nat
    else (c as int - 'A' as int + 10) as nat
  }

  /** The longest prefix of `s` made of digits of the radix. */
  function LeadingDigits(s: string, radix: nat): (r: string)
    ensures |r| <= |s| && r == s[..|r|]
    ensures forall k :: 0 <= k < |r| ==> IsRadixDigit(r[k], radix)
    ensures |r| < |s| ==> !IsRadixDigit(s[|r|], radix)
  {
    if s == [] || !IsRadixDigit(s[0], radix) then []
    else [s[0]] + LeadingDigits(s[1..], radix)
  }

  /** The number a string of digits of the radix denotes. */
  function RadixValue(s: string, radix: nat): nat
    requires forall k :: 0 <= k < |s| ==> IsRadixDigit(s[k], radix)
  {
    if s == [] then 0
    else
      var high := RadixValue(s[..|s| - 1], radix);
      (if radix == 16 then high * 16 else high * 10) + RadixDigitValue(s[|s| - 1], radix)
  }

  /** JavaScript's `parseInt(s)` with no radix; `None` is `NaN`. Leading
      white space and one sign are skipped, a `0x` or `0X` prefix selects
      base 16, and the longest run of digits that follows is read; nothing
      to read gives `NaN`. */
  function ParseInt(s: string): Option<int> {
    ParseSigned(TrimStart(s))
  }

  /** The text after the leading white space: an optional sign, then the
      number. */
  function ParseSigned(t: string): Option<int> {
    if |t| > 0 && t[0] == '-' then Negated(ParseUnsigned(t[1..]))
    else if |t| > 0 && t[0] == '+' then ParseUnsigned(t[1..])
    else ParseUnsigned(t)
  }

  function Negated(n: Option<int>): Option<int> {
    if n.None? then None else Some(-n.value)
  }

  /** The text after the sign: the digits that open it, in base 16 after a
      `0x` or `0X` prefix and in base 10 otherwise. */
  function ParseUnsigned(u: string): Option<int> {
    var (radix, body) := RadixAndDigits(u);
    var z := LeadingDigits(body, radix);
    if z == [] then None else Some(RadixValue(z, radix) as int)
  }

  /** The radix a base prefix selects, and the text after the prefix. */
  function RadixAndDigits(u: string): (nat, string) {
    if |u| >= 2 && u[0] == '0' && (u[1] == 'x' || u[1] == 'X') then (16, u[2..]) else (10, u)
  }

  lemma {:induction false} RadixValueDecimal(s: string)
    requires AllDigits(s)
    ensures RadixValue(s, 10) == DecimalValue(s)
  {
    if s != [] {
      RadixValueDecimal(s[..|s| - 1]);
    }
  }

  /** `parseInt` reads back what `String(n)` writes, whatever non-digit
      text follows. */
  lemma ParseIntDecimal(n: nat, rest: string)
    requires rest == [] || (!IsDigit(rest[0]) && rest[0] != 'x' && rest[0] != 'X')
    ensures ParseInt(DecimalString(n) + rest) == Some(n)
  {
    DecimalBody(n, rest);
    ParseIntUnsigned(DecimalString(n) + rest);
    UnsignedDecimal(n, rest);
  }

  /** The digits of `String(n)`, followed by a non-digit or by nothing,
      read as `n`. */
  lemma UnsignedDecimal(n: nat, rest: string)
    requires rest == [] || (!IsDigit(rest[0]) && rest[0] != 'x' && rest[0] != 'X')
    ensures ParseUnsigned(DecimalString(n) + rest) == Some(n)
  {
    var d := DecimalString(n);
    var s := d + rest;
    DecimalBody(n, rest);
    assert RadixAndDigits(s) == (10, s);
    DigitsRun(d, rest);
    var z := LeadingDigits(s, 10);
    assert z == d;
    DecimalRoundTrip(n);
    RadixValueDecimal(d);
    assert RadixValue(z, 10) == n;
  }

  /** Digits at the start: no sign and no white space to skip. */
  lemma ParseIntUnsigned(s: string)
    requires s != [] && IsDigit(s[0])
    ensures ParseInt(s) == ParseUnsigned(s)
  {
    assert !IsWhitespace(s[0]);
    TrimStartUnchanged(s);
  }

  /** A minus sign before digits: the sign is skipped and the number
      negated. */
  lemma ParseIntMinus(s: string)
    requires s != [] && IsDigit(s[0])
    ensures ParseInt(['-'] + s) == Negated(ParseUnsigned(s))
  {
    var m := ['-'] + s;
    assert m[0] == '-' && m[1..] == s;
    TrimStartUnchanged(m);
  }

  lemma TrimStartUnchanged(s: string)
    requires s != [] && !IsWhitespace(s[0])
    ensures TrimStart(s) == s
  {
  }

  /** `String(n)` for a whole number of either sign. */
  function IntegerString(n: int): (r: string)
    ensures r != []
  {
    if n < 0 then "-" + DecimalString(-n) else DecimalString(n)
  }

  /** `parseInt` reads back what `String(n)` writes. */
  lemma ParseIntIntegerString(n: int)
    ensures ParseInt(IntegerString(n)) == Some(n)
  {
    if n < 0 {
      var m: nat := -n;
      assert IntegerString(n) == ['-'] + DecimalString(m);
      ParseIntMinusDecimal(m);
    } else {
      ParseIntDecimalString(n);
    }
  }

  lemma ParseIntMinusDecimal(m: nat)
    ensures ParseInt(['-'] + DecimalString(m)) == Some(-(m as int))
  {
    var d := DecimalString(m);
    UnsignedDecimal(m, []);
    assert d + [] == d;
    ParseIntMinusDigits(d, m);
  }

  lemma ParseIntMinusDigits(d: string, m: nat)
    requires d != [] && IsDigit(d[0]) && ParseUnsigned(d) == Some(m)
    ensures ParseInt(['-'] + d) == Some(-(m as int))
  {
    ParseIntMinus(d);
  }

  lemma ParseIntDecimalString(m: nat)
    ensures ParseInt(DecimalString(m)) == Some(m)
  {
    ParseIntDecimal(m, []);
    assert DecimalString(m) + [] == DecimalString(m);
  }

  /** A blank string reads as `NaN`. */
  lemma ParseIntBlank(b: string)
    requires AllWhitespace(b)
    ensures ParseInt(b) == None
  {
  }

  /** `String(n)` followed by text that does not start with a digit or an
      `x` starts with a digit and not with a `0x` prefix. */
  lemma {:induction false} DecimalBody(n: nat, rest: string)
    requires rest == [] || (!IsDigit(rest[0]) && rest[0] != 'x' && rest[0] != 'X')
    ensures var s := DecimalString(n) + rest;
      && s != [] && IsDigit(s[0]) && !IsWhitespace(s[0]) && s[0] != '-' && s[0] != '+'
      && !(|s| >= 2 && s[0] == '0' && (s[1] == 'x' || s[1] == 'X'))
  {
    var d := DecimalString(n);
    if n >= 10 {
      LeadingDigitNonZero(n);
    } else {
      assert d == [DigitChar(n)];
    }
  }

  /** The digits of `String(n)` for n >= 10 do not start with a zero. */
  lemma {:induction false} LeadingDigitNonZero(n: nat)
    requires n >= 10
    ensures DecimalString(n)[0] != '0'
  {
    if n / 10 >= 10 {
      LeadingDigitNonZero(n / 10);
    } else {
      assert DecimalString(n / 10) == [DigitChar(n / 10)];
    }
  }

  /** A run of digits followed by a non-digit is read up to the non-digit. */
  lemma {:induction false} DigitsRun(d: string, rest: string)
    requires AllDigits(d)
    requires rest == [] || !IsDigit(rest[0])
    ensures LeadingDigits(d + rest, 10) == d
  {
    if d != [] {
      assert (d + rest)[1..] == d[1..] + rest;
      DigitsRun(d[1..], rest);
      assert d == [d[0]] + d[1..];
    } else {
      assert d + rest == rest;
    }
  }

  /** A string is what comes before position i, the character there, and
      what follows it. */
  lemma SplitAround(s: string, i: nat)
    requires i < |s|
    ensures s == s[..i] + ([s[i]] + s[i + 1..])
  {
  }

  /** `part` occurs in `s` starting at index `i`. */
  predicate OccursAt(s: string, part: string, i: int) {
    0 <= i <= |s| - |part| && s[i..i + |part|] == part
  }

  ghost predicate Contains(s: string, part: string) {
    exists i :: OccursAt(s, part, i)
  }
}
