/**
 * The string <-> number conversions the action performs on the stored counter:
 * the global `parseInt` (radix left undefined) and `Number.prototype.toString`
 * on its result plus one. Numbers are the ones `parseInt` can yield: NaN or an
 * integer (kept unbounded here).
 */
module NumberText {

  /** A JavaScript number as produced by `parseInt`: NaN or an integer. */
  datatype Num = NaN | Int(value: int)

  /** `x + k` on such a number: NaN absorbs the addition. */
  function Add(x: Num, k: int): Num
  {
    match x
    case NaN => NaN
    case Int(n) => Int(n + k)
  }

  /** The code points that ECMAScript counts as WhiteSpace or LineTerminator,
    * which `parseInt` skips before it reads a sign or digits. */
  predicate IsWhiteSpace(c: char)
  {
    || c == '\t' || c == '\n' || c == '\U{000B}' || c == '\U{000C}' || c == '\r'
    || c == ' ' || c == '\U{00A0}' || c == '\U{1680}'
    || ('\U{2000}' <= c <= '\U{200A}')
    || c == '\U{2028}' || c == '\U{2029}' || c == '\U{202F}' || c == '\U{205F}'
    || c == '\U{3000}' || c == '\U{FEFF}'
  }

  /** Drops the leading white space: the longest white-space prefix goes. */
  function TrimStart(s: string): (r: string)
    ensures |r| <= |s| && r == s[|s| - |r|..]
    ensures forall i :: 0 <= i < |s| - |r| ==> IsWhiteSpace(s[i])
    ensures r == [] || !IsWhiteSpace(r[0])
  {
    if s != [] && IsWhiteSpace(s[0]) then TrimStart(s[1..]) else s
  }

  predicate IsRadix(radix: nat)
  {
    radix == 10 || radix == 16
  }

  /** The value of `c` as a digit in `radix`, or -1 when it is not a digit there. */
  function DigitValue(c: char, radix: nat): (d: int)
    requires IsRadix(radix)
    ensures -1 <= d < radix
    ensures d >= 0 && radix == 10 <==> '0' <= c <= '9' && radix == 10
  {
    if '0' <= c <= '9' then c as int - '0' as int
    else if radix == 16 && 'a' <= c <= 'f' then c as int - 'a' as int + 10
    else if radix == 16 && 'A' <= c <= 'F' then c as int - 'A' as int + 10
    else -1
  }

  predicate IsDecimalDigit(c: char)
  {
    '0' <= c <= '9'
  }

  predicate AllDigits(s: string, radix: nat)
    requires IsRadix(radix)
  {
    forall i :: 0 <= i < |s| ==> DigitValue(s[i], radix) >= 0
  }

  /** How many characters at the front of `s` are digits in `radix`. */
  function DigitPrefixLength(s: string, radix: nat): (n: nat)
    requires IsRadix(radix)
    ensures n <= |s|
    ensures AllDigits(s[..n], radix)
    ensures n == |s| || DigitValue(s[n], radix) < 0
  {
    if s != [] && DigitValue(s[0], radix) >= 0 then 1 + DigitPrefixLength(s[1..], radix) else 0
  }

  /** The number that a run of digits spells in `radix`, most significant digit first. */
  function DigitsValue(s: string, radix: nat): nat
    requires IsRadix(radix) && AllDigits(s, radix)
  {
    if s == [] then 0 else DigitsValue(s[..|s| - 1], radix) * radix + DigitValue(s[|s| - 1], radix)
  }

  /** The number spelled by the longest run of `radix` digits at the front of
    * `body`, or NaN when there is none. */
  function LeadingDigits(body: string, radix: nat): Num
    requires IsRadix(radix)
  {
    var n := DigitPrefixLength(body, radix);
    if n == 0 then NaN else Int(DigitsValue(body[..n], radix))
  }

  /** What parseInt reads after the sign: a `0x` or `0X` switches to radix 16. */
  function ParseUnsigned(u: string): Num
  {
    if |u| >= 2 && u[0] == '0' && (u[1] == 'x' || u[1] == 'X') then LeadingDigits(u[2..], 16)
    else LeadingDigits(u, 10)
  }

  function Negate(x: Num): Num
  {
    match x
    case NaN => NaN
    case Int(n) => Int(0 - n)
  }

  /**
   * `parseInt(s)` with no radix: skip white space, read an optional sign, then
   * read the number after it. No digits at all gives NaN.
   */
  function ParseInt(s: string): Num
  {
    var t := TrimStart(s);
    if t != [] && t[0] == '-' then Negate(ParseUnsigned(t[1..]))
    else if t != [] && t[0] == '+' then ParseUnsigned(t[1..])
    else ParseUnsigned(t)
  }

  /** A non-empty run of decimal digits with no redundant leading zero. */
  predicate IsCanonicalDecimal(s: string)
  {
    && s != []
    && (forall i :: 0 <= i < |s| ==> IsDecimalDigit(s[i]))
    && (s[0] == '0' ==> |s| == 1)
  }

  /** What `toString` prints for an integer: canonical digits, with a minus sign
    * in front of a negative one (and never "-0"). */
  predicate IsCanonicalInteger(s: string)
  {
    || IsCanonicalDecimal(s)
    || (|s| >= 2 && s[0] == '-' && IsCanonicalDecimal(s[1..]) && s[1] != '0')
  }

  function DigitChar(d: nat): (c: char)
    requires d < 10
    ensures IsDecimalDigit(c) && DigitValue(c, 10) == d
  {
    ('0' as int + d) as char
  }

  /** The decimal numeral of a natural number. */
  function NaturalToDecimal(n: nat): (s: string)
    ensures IsCanonicalDecimal(s)
    ensures s[0] == '0' <==> n == 0
  {
    if n < 10 then [DigitChar(n)] else NaturalToDecimal(n / 10) + [DigitChar(n % 10)]
  }

  /** `Number.prototype.toString()` on a number `parseInt` can yield (plus one). */
  function NumberToString(x: Num): (s: string)
    ensures x.Int? ==> IsCanonicalInteger(s)
    ensures x.NaN? ==> s == "NaN"
  {
    match x
    case NaN => "NaN"
    case Int(n) => if n < 0 then "-" + NaturalToDecimal(-n) else NaturalToDecimal(n)
  }

  /** `(parseInt(stored) + 1).toString()`: the next value of the counter. */
  function IncrementText(stored: string): string
  {
    NumberToString(Add(ParseInt(stored), 1))
  }

  // ---------------------------------------------------------------------------
  // Decimal numerals: value and printing are inverse to each other.

  /** Printing a natural number and reading the digits back gives the number. */
  lemma {:induction false} DecimalValue(n: nat)
    ensures AllDigits(NaturalToDecimal(n), 10)
    ensures DigitsValue(NaturalToDecimal(n), 10) == n
  {
    var s := NaturalToDecimal(n);
    if n >= 10 {
      DecimalValue(n / 10);
      assert s[..|s| - 1] == NaturalToDecimal(n / 10);
    }
  }

  /** Digits that start with a non-zero digit spell a positive number. */
  lemma {:induction false} DigitsValuePositive(s: string)
    requires IsCanonicalDecimal(s) && s[0] != '0'
    ensures AllDigits(s, 10)
    ensures DigitsValue(s, 10) >= 1
  {
    if |s| > 1 {
      DigitsValuePositive(s[..|s| - 1]);
    }
  }

  /** Reading canonical digits and printing the value gives the digits back. */
  lemma {:induction false} DecimalOfValue(s: string)
    requires IsCanonicalDecimal(s)
    ensures AllDigits(s, 10)
    ensures NaturalToDecimal(DigitsValue(s, 10)) == s
  {
    var v := DigitsValue(s, 10);
    if |s| > 1 {
      var p := s[..|s| - 1];
      assert IsCanonicalDecimal(p);
      DigitsValuePositive(p);
      DecimalOfValue(p);
      var d := DigitValue(s[|s| - 1], 10);
      assert v == DigitsValue(p, 10) * 10 + d;
      assert v / 10 == DigitsValue(p, 10) && v % 10 == d;
      assert DigitChar(d) == s[|s| - 1];
      assert s == p + [s[|s| - 1]];
    } else {
      assert s[..|s| - 1] == [];
      assert v == DigitValue(s[0], 10);
      assert DigitChar(v) == s[0];
    }
  }

  // ---------------------------------------------------------------------------
  // parseInt.

  /** A string that does not start with white space is not trimmed. */
  lemma TrimStartKeeps(s: string)
    requires s != [] && !IsWhiteSpace(s[0])
    ensures TrimStart(s) == s
  {
  }

  /** parseInt skips leading white space. */
  lemma ParseIntSkipsWhiteSpace(c: char, s: string)
    requires IsWhiteSpace(c)
    ensures ParseInt([c] + s) == ParseInt(s)
  {
  }

  /** DigitPrefixLength is the only length whose prefix is all digits and that
    * stops at the end or at a non-digit. */
  lemma DigitPrefixLengthIs(s: string, radix: nat, k: nat)
    requires IsRadix(radix) && k <= |s| && AllDigits(s[..k], radix)
    requires k == |s| || DigitValue(s[k], radix) < 0
    ensures DigitPrefixLength(s, radix) == k
  {
  }

  /** The decimal digits in front of a non-digit are read as one number. */
  lemma LeadingDecimalDigits(digits: string, rest: string)
    requires digits != [] && forall i :: 0 <= i < |digits| ==> IsDecimalDigit(digits[i])
    requires rest == [] || !IsDecimalDigit(rest[0])
    ensures AllDigits(digits, 10)
    ensures LeadingDigits(digits + rest, 10) == Int(DigitsValue(digits, 10))
  {
    var s := digits + rest;
    assert s[..|digits|] == digits;
    assert |digits| < |s| ==> s[|digits|] == rest[0];
    DigitPrefixLengthIs(s, 10, |digits|);
  }

  /**
   * parseInt reads the longest run of decimal digits at the front and ignores
   * whatever follows it (a fraction, a unit, any text), unless the digits are a
   * lone "0" followed by "x", which switches to hexadecimal.
   */
  lemma ParseIntDecimalPrefix(digits: string, rest: string)
    requires digits != [] && forall i :: 0 <= i < |digits| ==> IsDecimalDigit(digits[i])
    requires rest == [] || (!IsDecimalDigit(rest[0]) && (digits == "0" ==> rest[0] != 'x' && rest[0] != 'X'))
    ensures AllDigits(digits, 10)
    ensures ParseInt(digits + rest) == Int(DigitsValue(digits, 10))
  {
    var s := digits + rest;
    TrimStartKeeps(s);
    if |s| >= 2 && s[0] == '0' {
      if |digits| >= 2 {
        assert s[1] == digits[1];
      } else {
        assert digits == "0" && s[1] == rest[0];
      }
    }
    assert ParseUnsigned(s) == LeadingDigits(s, 10);
    LeadingDecimalDigits(digits, rest);
  }

  /** Canonical digits are read whole, in radix 10. */
  lemma ParseUnsignedCanonical(s: string)
    requires IsCanonicalDecimal(s)
    ensures AllDigits(s, 10)
    ensures ParseUnsigned(s) == Int(DigitsValue(s, 10))
  {
    assert s[..|s|] == s;
    DigitPrefixLengthIs(s, 10, |s|);
  }

  /** A canonical decimal numeral parses to its value. */
  lemma ParseIntCanonical(s: string)
    requires IsCanonicalDecimal(s)
    ensures AllDigits(s, 10)
    ensures ParseInt(s) == Int(DigitsValue(s, 10))
  {
    TrimStartKeeps(s);
    ParseUnsignedCanonical(s);
  }

  /** A minus sign before a canonical decimal numeral negates its value. */
  lemma ParseIntNegativeCanonical(s: string)
    requires IsCanonicalDecimal(s)
    ensures AllDigits(s, 10)
    ensures ParseInt("-" + s) == Int(0 - DigitsValue(s, 10))
  {
    var m := "-" + s;
    TrimStartKeeps(m);
    assert m[1..] == s;
    ParseUnsignedCanonical(s);
  }

  /** The text "NaN" has no leading digits, so it parses to NaN again. */
  lemma ParseIntNaNText()
    ensures ParseInt("NaN") == NaN
  {
    TrimStartKeeps("NaN");
    DigitPrefixLengthIs("NaN", 10, 0);
  }

  /** parseInt reads back exactly what toString printed: the number, or NaN from "NaN". */
  lemma {:induction false} ParseIntOfToString(x: Num)
    ensures ParseInt(NumberToString(x)) == x
  {
    if x.NaN? {
      ParseIntNaNText();
    } else if x.value < 0 {
      var m := 0 - x.value;
      DecimalValue(m);
      assert NumberToString(x) == "-" + NaturalToDecimal(m);
      ParseIntNegativeCanonical(NaturalToDecimal(m));
    } else {
      DecimalValue(x.value);
      assert NumberToString(x) == NaturalToDecimal(x.value);
      ParseIntCanonical(NaturalToDecimal(x.value));
    }
  }

  /** toString prints back exactly the canonical integer numeral parseInt read. */
  lemma {:induction false} ToStringOfParseInt(s: string)
    requires IsCanonicalInteger(s)
    ensures NumberToString(ParseInt(s)) == s
  {
    if IsCanonicalDecimal(s) {
      ParseIntCanonical(s);
      DecimalOfValue(s);
    } else {
      var t := s[1..];
      assert s == "-" + t;
      ParseIntNegativeCanonical(t);
      DigitsValuePositive(t);
      DecimalOfValue(t);
    }
  }

  /** The incremented text parses to one more than the stored text did;
    * a stored text with no leading digits turns into "NaN". */
  lemma IncrementTextParses(stored: string)
    ensures ParseInt(IncrementText(stored)) == Add(ParseInt(stored), 1)
    ensures ParseInt(stored).NaN? <==> IncrementText(stored) == "NaN"
  {
    ParseIntOfToString(Add(ParseInt(stored), 1));
  }

  /** For a counter stored as the canonical numeral of n, the next value is the
    * canonical numeral of n + 1, so the counter only goes up. */
  lemma IncrementCanonical(stored: string)
    requires IsCanonicalDecimal(stored)
    ensures AllDigits(stored, 10)
    ensures IncrementText(stored) == NaturalToDecimal(DigitsValue(stored, 10) + 1)
    ensures ParseInt(IncrementText(stored)) == Int(DigitsValue(stored, 10) + 1)
  {
    ParseIntCanonical(stored);
    IncrementTextParses(stored);
  }

  /** The stored counter "42" becomes "43". */
  lemma IncrementFortyTwo()
    ensures IncrementText("42") == "43"
  {
    IncrementCanonical("42");
    assert "42"[..1] == "4" && "4"[..0] == [];
    assert DigitsValue("4", 10) == 4;
    assert DigitsValue("42", 10) == 42;
    assert NaturalToDecimal(4) == [DigitChar(4)] == "4";
    assert NaturalToDecimal(43) == NaturalToDecimal(4) + [DigitChar(3)];
  }

  /** A stored counter that starts with neither white space, a sign nor a digit
    * is incremented to "NaN". */
  lemma IncrementNonNumeric(stored: string)
    requires stored != [] && !IsWhiteSpace(stored[0]) && !IsDecimalDigit(stored[0])
    requires stored[0] != '-' && stored[0] != '+'
    ensures IncrementText(stored) == "NaN"
  {
    TrimStartKeeps(stored);
    DigitPrefixLengthIs(stored, 10, 0);
  }
}
