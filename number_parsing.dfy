/** `parseInt(text, 10)` as the quiz uses it to read the typed answer: skip
    leading white space, take an optional sign, then the longest run of
    decimal digits; with no digit the result is NaN (here `None`). */
module NumberParsing {
  import opened Types

  /** The characters `parseInt` skips at the start: ECMAScript white space
      (tab, vertical tab, form feed, the byte-order mark and every space
      separator) and the four line terminators. */
  predicate IsWhiteSpace(c: char)
  {
    || c == '\t' || c == '\n' || c == '\U{B}' || c == '\U{C}' || c == '\r'
    || c == ' ' || c == '\U{A0}' || c == '\U{1680}'
    || ('\U{2000}' <= c <= '\U{200A}')
    || c == '\U{2028}' || c == '\U{2029}' || c == '\U{202F}' || c == '\U{205F}'
    || c == '\U{3000}' || c == '\U{FEFF}'
  }

  predicate IsDigit(c: char)
  {
    '0' <= c <= '9'
  }

  function DigitValue(c: char): (d: nat)
    requires IsDigit(c)
    ensures d < 10
  {
    (c - '0') as nat
  }

  function DigitChar(d: nat): (c: char)
    requires d < 10
    ensures IsDigit(c) && DigitValue(c) == d
  {
    ('0' as int + d) as char
  }

  predicate AllDigits(s: string)
  {
    s == [] || (IsDigit(s[0]) && AllDigits(s[1..]))
  }

  lemma {:induction false} AllDigitsConcat(s: string, t: string)
    requires AllDigits(s) && AllDigits(t)
    ensures AllDigits(s + t)
  {
    if s != [] {
      assert (s + t)[1..] == s[1..] + t;
      AllDigitsConcat(s[1..], t);
    } else {
      assert s + t == t;
    }
  }

  /** The text with its leading white space removed. */
  function TrimStart(s: string): (t: string)
    ensures |t| <= |s|
    ensures t == [] || !IsWhiteSpace(t[0])
  {
    if |s| > 0 && IsWhiteSpace(s[0]) then TrimStart(s[1..]) else s
  }

  /** The longest prefix made of decimal digits. */
  function DigitPrefix(s: string): (d: string)
    ensures AllDigits(d)
  {
    if |s| > 0 && IsDigit(s[0]) then [s[0]] + DigitPrefix(s[1..]) else []
  }

  /** The digit run is a prefix of the text and stops at its first non-digit. */
  lemma {:induction false} DigitPrefixIsLongestRun(s: string)
    ensures var d := DigitPrefix(s); d <= s && (|d| < |s| ==> !IsDigit(s[|d|]))
  {
    if |s| > 0 && IsDigit(s[0]) {
      DigitPrefixIsLongestRun(s[1..]);
    }
  }

  /** The value of a run of decimal digits read after the digits worth `acc`,
      most significant first. */
  function DigitsValueFrom(acc: nat, d: string): nat
    requires AllDigits(d)
    decreases |d|
  {
    if d == [] then acc else DigitsValueFrom(acc * 10 + DigitValue(d[0]), d[1..])
  }

  /** The value of a run of decimal digits. */
  function DigitsValue(d: string): nat
    requires AllDigits(d)
  {
    DigitsValueFrom(0, d)
  }

  /** One more digit at the end multiplies the value read so far by ten and
      adds the digit. */
  lemma {:induction false} DigitsValueFromAppend(acc: nat, d: string, c: char)
    requires AllDigits(d) && IsDigit(c)
    ensures AllDigits(d + [c])
    ensures DigitsValueFrom(acc, d + [c]) == DigitsValueFrom(acc, d) * 10 + DigitValue(c)
    decreases |d|
  {
    AllDigitsConcat(d, [c]);
    if d != [] {
      assert (d + [c])[1..] == d[1..] + [c];
      DigitsValueFromAppend(acc * 10 + DigitValue(d[0]), d[1..], c);
    } else {
      assert [] + [c] == [c];
    }
  }

  /** What follows an optional leading sign. */
  function Unsigned(t: string): string
  {
    if |t| > 0 && (t[0] == '-' || t[0] == '+') then t[1..] else t
  }

  /** The value of the digit run at the start of a text, if there is one. */
  function Magnitude(u: string): Option<nat>
  {
    var digits := DigitPrefix(u);
    if digits == [] then None else Some(DigitsValue(digits))
  }

  /** The number at the start of a text that begins after the white space. */
  function ParseSigned(t: string): Option<int>
  {
    match Magnitude(Unsigned(t))
    case None => None
    case Some(m) => if |t| > 0 && t[0] == '-' then Some(-(m as int)) else Some(m)
  }

  /** `parseInt(s, 10)`; `None` stands for NaN, which it is exactly when no
      digit follows the leading white space and an optional sign. */
  function ParseInt(s: string): (r: Option<int>)
    ensures r.None? <==> (var u := Unsigned(TrimStart(s)); u == [] || !IsDigit(u[0]))
  {
    ParseSigned(TrimStart(s))
  }

  /** The decimal numeral of a natural number, without leading zeros. */
  function NatToString(n: nat): (s: string)
    ensures |s| > 0 && AllDigits(s)
  {
    if n < 10 then [DigitChar(n)]
    else
      var init, last := NatToString(n / 10), [DigitChar(n % 10)];
      AllDigitsConcat(init, last);
      init + last
  }

  /** The decimal numeral of an integer, as `String(n)` writes it. */
  function IntToString(n: int): (s: string)
    ensures |s| > 0
  {
    if n < 0 then "-" + NatToString(-n) else NatToString(n)
  }

  /** Reading back the numeral of a natural number gives that number. */
  lemma {:induction false} NatToStringValue(n: nat)
    ensures DigitsValue(NatToString(n)) == n
  {
    if n >= 10 {
      var init, c := NatToString(n / 10), DigitChar(n % 10);
      assert NatToString(n) == init + [c];
      NatToStringValue(n / 10);
      DigitsValueFromAppend(0, init, c);
    } else {
      var c := DigitChar(n);
      assert NatToString(n) == [] + [c];
      DigitsValueFromAppend(0, [], c);
    }
  }

  /** The digit run of a numeral followed by a non-digit is the numeral. */
  lemma {:induction false} DigitPrefixOfDigits(d: string, rest: string)
    requires AllDigits(d)
    requires rest == [] || !IsDigit(rest[0])
    ensures DigitPrefix(d + rest) == d
  {
    if d != [] {
      assert (d + rest)[1..] == d[1..] + rest;
      DigitPrefixOfDigits(d[1..], rest);
    }
  }

  /** A run of digits followed by a non-digit reads as the run's value,
      negated when a minus sign comes first. */
  lemma ParseSignedOfDigits(digits: string, rest: string)
    requires digits != [] && AllDigits(digits)
    requires rest == [] || !IsDigit(rest[0])
    ensures ParseSigned(digits + rest) == Some(DigitsValue(digits))
    ensures ParseSigned(['-'] + (digits + rest)) == Some(-(DigitsValue(digits) as int))
  {
    var t := digits + rest;
    DigitPrefixOfDigits(digits, rest);
    assert t[0] == digits[0];
    assert (['-'] + t)[1..] == t;
  }

  /** A plus sign before a run of digits is skipped: the value is the run's. */
  lemma ParseSignedOfPlusDigits(digits: string, rest: string)
    requires digits != [] && AllDigits(digits)
    requires rest == [] || !IsDigit(rest[0])
    ensures ParseSigned(['+'] + (digits + rest)) == Some(DigitsValue(digits))
  {
    DigitPrefixOfDigits(digits, rest);
    assert (['+'] + (digits + rest))[1..] == digits + rest;
  }

  /** Round trip: `parseInt` of a numeral gives its number back, whatever
      non-digit text follows it (so "12x" reads 12 and "1e3" reads 1). */
  lemma ParseIntOfNumeral(n: int, rest: string)
    requires rest == [] || !IsDigit(rest[0])
    ensures ParseInt(IntToString(n) + rest) == Some(n)
  {
    var m: nat := if n < 0 then -n else n;
    var digits := NatToString(m);
    NatToStringValue(m);
    ParseSignedOfDigits(digits, rest);
    if n < 0 {
      var s := ['-'] + (digits + rest);
      assert IntToString(n) + rest == s;
      NumeralNotTrimmed(s);
    } else {
      var s := digits + rest;
      assert IntToString(n) + rest == s;
      NumeralNotTrimmed(s);
    }
  }

  /** A text starting with a sign or a digit has no white space to skip. */
  lemma NumeralNotTrimmed(s: string)
    requires |s| > 0 && (s[0] == '-' || s[0] == '+' || IsDigit(s[0]))
    ensures TrimStart(s) == s
  {
  }

  /** Leading white space is dropped whole. */
  lemma {:induction false} TrimStartSkipsWhiteSpace(w: string, s: string)
    requires forall i :: 0 <= i < |w| ==> IsWhiteSpace(w[i])
    ensures TrimStart(w + s) == TrimStart(s)
  {
    if w != [] {
      assert (w + s)[1..] == w[1..] + s;
      TrimStartSkipsWhiteSpace(w[1..], s);
    } else {
      assert w + s == s;
    }
  }

  /** Leading white space does not change what `parseInt` reads. */
  lemma ParseIntSkipsWhiteSpace(w: string, s: string)
    requires forall i :: 0 <= i < |w| ==> IsWhiteSpace(w[i])
    ensures ParseInt(w + s) == ParseInt(s)
  {
    TrimStartSkipsWhiteSpace(w, s);
  }

  /** Texts with no leading integer read as NaN. */
  lemma ParseIntNaNExamples()
    ensures ParseInt("") == None
    ensures ParseInt("abc") == None
    ensures ParseInt("-") == None
  {
  }

  /** Texts that start with an integer read as that integer, whatever follows. */
  lemma ParseIntExamples()
    ensures ParseInt("12x") == Some(12)
    ensures ParseInt("1e3") == Some(1)
  {
    ParseIntOfNumeral(12, "x");
    assert IntToString(12) + "x" == "12x";
    ParseIntOfNumeral(1, "e3");
    assert IntToString(1) + "e3" == "1e3";
  }

  /** Leading white space and either sign are handled. */
  lemma ParseIntSignExamples()
    ensures ParseInt("  -7") == Some(-7)
    ensures ParseInt("+8") == Some(8)
  {
    ParseIntOfNumeral(-7, "");
    assert IntToString(-7) + "" == "-7";
    ParseIntSkipsWhiteSpace("  ", "-7");
    assert "  " + "-7" == "  -7";
    var eight := NatToString(8);
    assert eight == "8";
    ParseSignedOfPlusDigits(eight, "");
    assert ['+'] + (eight + "") == "+8";
    NumeralNotTrimmed("+8");
  }
}
