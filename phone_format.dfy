/** The contact form's formatters (frontend/src/domain/contact/utils/formatters.ts):
    the phone mask applied on every keystroke, and the client's own protocol
    number, whose clock and random draw are parameters. */
module PhoneFormat {
  import opened Text
  import opened ContactTypes
  import opened ContactSchema
  import opened ContactLogic

  /** The mask over the digits of the input: an area code in parentheses,
      then four or five digits, a dash and the rest, cut at 11 digits. */
  function Mask(n: string): string {
    if |n| <= 2 then n
    else if |n| <= 6 then "(" + (n[..2] + (") " + n[2..]))
    else if |n| <= 10 then "(" + (n[..2] + (") " + (n[2..6] + ("-" + n[6..]))))
    else "(" + (n[..2] + (") " + (n[2..7] + ("-" + n[7..11]))))
  }

  /** `formatPhoneNumber` */
  function FormatPhoneNumber(value: string): string {
    Mask(Digits(value))
  }

  /** The characters the mask writes. */
  predicate MaskChar(c: char) {
    IsDigit(c) || c == '(' || c == ')' || c == ' ' || c == '-'
  }

  function Min(a: nat, b: nat): nat {
    if a <= b then a else b
  }

  // ------------------------------------------------------------ digits kept

  /** The digits of `(a) x`. */
  lemma DigitsShort(a: string, x: string)
    ensures Digits("(" + (a + (") " + x))) == Digits(a) + Digits(x)
  {
    var t := ") " + x;
    DigitsAppend(") ", x);
    assert Digits(") ") == [];
    assert Digits(t) == Digits(x);
    var u := a + t;
    DigitsAppend(a, t);
    DigitsAppend("(", u);
    assert Digits("(") == [];
  }

  /** The digits of `b-c`. */
  lemma DigitsDash(b: string, c: string)
    ensures Digits(b + ("-" + c)) == Digits(b) + Digits(c)
  {
    DigitsAppend(b, "-" + c);
    DigitsAppend("-", c);
    assert Digits("-") == [];
  }

  /** The digits of `(a) b-c` for strings of digits. */
  lemma DigitsOfLongMask(a: string, b: string, c: string)
    requires AllDigits(a) && AllDigits(b) && AllDigits(c)
    ensures Digits("(" + (a + (") " + (b + ("-" + c))))) == a + (b + c)
  {
    DigitsShort(a, b + ("-" + c));
    DigitsDash(b, c);
    DigitsOfDigits(a);
    DigitsOfDigits(b);
    DigitsOfDigits(c);
  }

  /** The digits of the mask are the digits it was given, cut at 11. */
  lemma MaskDigits(n: string)
    requires AllDigits(n)
    ensures Digits(Mask(n)) == n[..Min(|n|, 11)]
  {
    if |n| <= 2 {
      DigitsOfDigits(n);
      assert n[..|n|] == n;
    } else if |n| <= 6 {
      MaskDigitsShort(n);
    } else if |n| <= 10 {
      MaskDigitsMedium(n);
    } else {
      MaskDigitsLong(n);
    }
  }

  lemma MaskDigitsShort(n: string)
    requires AllDigits(n) && 2 < |n| <= 6
    ensures Digits(Mask(n)) == n
  {
    DigitsShort(n[..2], n[2..]);
    DigitsOfDigits(n[..2]);
    DigitsOfDigits(n[2..]);
    assert n[..2] + n[2..] == n;
  }

  lemma MaskDigitsMedium(n: string)
    requires AllDigits(n) && 6 < |n| <= 10
    ensures Digits(Mask(n)) == n
  {
    DigitsOfLongMask(n[..2], n[2..6], n[6..]);
    assert n[..2] + (n[2..6] + n[6..]) == n;
  }

  lemma MaskDigitsLong(n: string)
    requires AllDigits(n) && |n| > 10
    ensures Digits(Mask(n)) == n[..11]
  {
    DigitsOfLongMask(n[..2], n[2..7], n[7..11]);
    assert n[..2] + (n[2..7] + n[7..11]) == n[..11];
  }

  /** The formatted number holds the first digits of the input, up to 11 of
      them, in order, and nothing else that is a digit. */
  lemma FormatKeepsDigits(value: string)
    ensures var n := Digits(value);
      Digits(FormatPhoneNumber(value)) == n[..Min(|n|, 11)]
  {
    MaskDigits(Digits(value));
  }

  /** Every character of `s` is one the mask writes. */
  predicate MaskChars(s: string) {
    forall i :: 0 <= i < |s| ==> MaskChar(s[i])
  }

  lemma MaskCharsAppend(a: string, b: string)
    requires MaskChars(a) && MaskChars(b)
    ensures MaskChars(a + b)
  {
    forall i | 0 <= i < |a + b| ensures MaskChar((a + b)[i]) {
      if i >= |a| {
        assert (a + b)[i] == b[i - |a|];
      }
    }
  }

  /** `(a) b` writes only mask characters. */
  lemma ShortMaskChars(a: string, b: string)
    requires MaskChars(a) && MaskChars(b)
    ensures MaskChars("(" + (a + (") " + b)))
  {
    MaskCharsAppend(") ", b);
    MaskCharsAppend(a, ") " + b);
    MaskCharsAppend("(", a + (") " + b));
  }

  /** `(a) b-c` writes only mask characters. */
  lemma LongMaskChars(a: string, b: string, c: string)
    requires MaskChars(a) && MaskChars(b) && MaskChars(c)
    ensures MaskChars("(" + (a + (") " + (b + ("-" + c)))))
  {
    MaskCharsAppend("-", c);
    MaskCharsAppend(b, "-" + c);
    ShortMaskChars(a, b + ("-" + c));
  }

  /** Only digits, parentheses, spaces and dashes appear in the output. */
  lemma FormatCharacters(value: string)
    ensures forall i :: 0 <= i < |FormatPhoneNumber(value)| ==> MaskChar(FormatPhoneNumber(value)[i])
  {
    var n := Digits(value);
    assert MaskChars(n);
    if |n| <= 2 {
    } else if |n| <= 6 {
      ShortMaskChars(n[..2], n[2..]);
    } else if |n| <= 10 {
      LongMaskChars(n[..2], n[2..6], n[6..]);
    } else {
      LongMaskChars(n[..2], n[2..7], n[7..11]);
    }
  }

  /** The length of the output for each count of digits. */
  lemma FormatLength(value: string)
    ensures var k := |Digits(value)|;
      |FormatPhoneNumber(value)| ==
        if k <= 2 then k else if k <= 6 then k + 3 else if k <= 10 then k + 4 else 15
  {
    var n := Digits(value);
    if 6 < |n| <= 10 {
      assert |Mask(n)| == 1 + 2 + 2 + 4 + 1 + (|n| - 6);
    } else if |n| > 10 {
      assert |Mask(n)| == 1 + 2 + 2 + 5 + 1 + 4;  // 15
    }
  }

  /** Formatting a formatted number changes nothing. */
  lemma FormatIdempotent(value: string)
    ensures FormatPhoneNumber(FormatPhoneNumber(value)) == FormatPhoneNumber(value)
  {
    var n := Digits(value);
    FormatKeepsDigits(value);
    if |n| > 11 {
      var m := n[..11];
      assert m[..2] == n[..2] && m[2..7] == n[2..7] && m[7..11] == n[7..11];
    } else {
      assert n[..|n|] == n;
    }
  }

  // ------------------------------------------------------------ client rule

  lemma {:induction false} WithoutWhitespaceAppend(a: string, b: string)
    ensures WithoutWhitespace(a + b) == WithoutWhitespace(a) + WithoutWhitespace(b)
  {
    if a != [] {
      assert (a + b)[1..] == a[1..] + b;
      WithoutWhitespaceAppend(a[1..], b);
    } else {
      assert a + b == b;
    }
  }

  lemma {:induction false} WithoutWhitespaceOfDigits(s: string)
    requires AllDigits(s)
    ensures WithoutWhitespace(s) == s
  {
    if s != [] {
      WithoutWhitespaceOfDigits(s[1..]);
    }
  }

  /** Dropping the white space of `(a) b-c` leaves `(a)b-c`. */
  lemma WithoutWhitespaceOfMask(a: string, b: string, c: string)
    requires AllDigits(a) && AllDigits(b) && AllDigits(c)
    ensures WithoutWhitespace("(" + (a + (") " + (b + ("-" + c))))) == "(" + (a + (")" + (b + ("-" + c))))
  {
    WithoutWhitespaceAppend(b, "-" + c);
    WithoutWhitespaceAppend("-", c);
    WithoutWhitespaceOfDigits(b);
    WithoutWhitespaceOfDigits(c);
    var tail := b + ("-" + c);
    assert WithoutWhitespace("-") == "-";
    assert WithoutWhitespace(tail) == tail;
    WithoutWhitespaceAppend(") ", tail);
    assert WithoutWhitespace(") ") == ")";
    WithoutWhitespaceAppend(a, ") " + tail);
    WithoutWhitespaceOfDigits(a);
    WithoutWhitespaceAppend("(", a + (") " + tail));
    assert WithoutWhitespace("(") == "(";
  }

  /** `(a)b-c` with a two-digit area code, four or five digits and four
      digits matches the client's phone pattern. */
  lemma MaskMatchesPattern(a: string, b: string, c: string)
    requires AllDigits(a) && AllDigits(b) && AllDigits(c)
    requires |a| == 2 && (|b| == 4 || |b| == 5) && |c| == 4
    ensures PhonePattern("(" + (a + (")" + (b + ("-" + c)))))
  {
    var s := "(" + (a + (")" + (b + ("-" + c))));
    var t := b + ("-" + c);
    TailMatches(b, c);
    assert SkipOptional(s, '(') == a + (")" + t);
    assert (a + (")" + t))[2..] == ")" + t;
    assert SkipOptional(")" + t, ')') == t;
    assert t[0] == b[0];
  }

  /** `b-c` with four or five digits, then four, ends a phone number. */
  lemma TailMatches(b: string, c: string)
    requires AllDigits(b) && AllDigits(c) && (|b| == 4 || |b| == 5) && |c| == 4
    ensures PhoneTail(b + ("-" + c))
  {
    var t := b + ("-" + c);
    assert t[..|t| - 5] == b && t[|t| - 5] == '-' && t[|t| - 4..] == c;
  }

  /** A number typed with 10 or 11 digits, once formatted, passes the
      client's phone rule. */
  lemma FormattedPhoneAccepted(value: string)
    requires |Digits(value)| == 10 || |Digits(value)| == 11
    ensures PhoneOk(FormatPhoneNumber(value))
  {
    var n := Digits(value);
    FormatLength(value);
    var i := if |n| == 10 then 6 else 7;
    var j := if |n| == 10 then 10 else 11;
    assert FormatPhoneNumber(value) == "(" + (n[..2] + (") " + (n[2..i] + ("-" + n[i..j]))));
    WithoutWhitespaceOfMask(n[..2], n[2..i], n[i..j]);
    MaskMatchesPattern(n[..2], n[2..i], n[i..j]);
  }

  // ------------------------------------------------------------ protocol

  /** The client's `generateProtocol`: the date written as the recorder
      writes it, then `Math.floor(Math.random() * 99999) + 1` padded to five
      digits; `draw` is the floored product, below 99999. */
  function ClientProtocol(now: Moment, draw: nat): string {
    DecimalString(now.year) + Padded(now.month, 2) + Padded(now.day, 2) + Padded(draw + 1, 5)
  }

  /** For a calendar date, the client's protocol is 13 digits: the year,
      the month, the day, then a sequence number from 1 to 99999. */
  lemma ClientProtocolFields(now: Moment, draw: nat)
    requires CalendarDate(now) && draw < 99999
    ensures var p := ClientProtocol(now, draw);
      && |p| == 13 && AllDigits(p)
      && DecimalValue(p[..4]) == now.year && DecimalValue(p[4..6]) == now.month
      && DecimalValue(p[6..8]) == now.day
      && 1 <= DecimalValue(p[8..]) <= 99999
  {
    assert ClientProtocol(now, draw) == Protocol(now, draw + 1);
    ProtocolFields(now, draw + 1);
  }
}
