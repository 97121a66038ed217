/**
 * The two number conversions the theme code relies on: `parseInt(s, 16)`
 * (ECMA-262, the global function parseInt) and the conversion of a number to
 * text inside a template literal. A number that is NaN is `None`.
 */
module JsNumbers {
  import opened Wrappers

  /** StrWhiteSpaceChar of ECMA-262: WhiteSpace (including every Zs character) and LineTerminator. */
  predicate IsJsWhiteSpace(c: char) {
    || c == '\t' || c == '\n' || c == '\U{B}' || c == '\U{C}' || c == '\r' || c == ' '
    || c == '\U{A0}' || c == '\U{1680}' || ('\U{2000}' <= c <= '\U{200A}')
    || c == '\U{2028}' || c == '\U{2029}' || c == '\U{202F}' || c == '\U{205F}'
    || c == '\U{3000}' || c == '\U{FEFF}'
  }

  /** Drops the leading white space, as parseInt does first. */
  function TrimStart(s: string): string {
    if s != [] && IsJsWhiteSpace(s[0]) then TrimStart(s[1..]) else s
  }

  predicate IsHexDigit(c: char) {
    '0' <= c <= '9' || 'a' <= c <= 'f' || 'A' <= c <= 'F'
  }

  predicate AllHexDigits(s: string) {
    forall k | 0 <= k < |s| :: IsHexDigit(s[k])
  }

  /** The value of a hex digit (0 for any other character, which never reaches it). */
  function HexDigitValue(c: char): (v: nat)
    ensures v < 16
  {
    if '0' <= c <= '9' then c as int - '0' as int
    else if 'a' <= c <= 'f' then c as int - 'a' as int + 10
    else if 'A' <= c <= 'F' then c as int - 'A' as int + 10
    else 0
  }

  /** The value of a string of hex digits, most significant digit first. */
  function HexValue(ds: string): nat {
    if ds == [] then 0 else HexValue(ds[..|ds| - 1]) * 16 + HexDigitValue(ds[|ds| - 1])
  }

  function Pow16(n: nat): (p: nat)
    ensures p >= 1
  {
    if n == 0 then 1 else 16 * Pow16(n - 1)
  }

  /** `n` hex digits denote a number below 16^n; two of them, one below 256. */
  lemma {:induction false} HexValueBound(ds: string)
    requires AllHexDigits(ds)
    ensures HexValue(ds) < Pow16(|ds|)
  {
    if ds != [] {
      HexValueBound(ds[..|ds| - 1]);
    }
  }

  /** The longest prefix of hex digits, where parseInt stops reading. */
  function HexDigitsPrefix(s: string): string {
    if s != [] && IsHexDigit(s[0]) then [s[0]] + HexDigitsPrefix(s[1..]) else []
  }

  /** A string of hex digits is read to its end. */
  lemma {:induction false} HexDigitsPrefixOfDigits(ds: string)
    requires AllHexDigits(ds)
    ensures HexDigitsPrefix(ds) == ds
  {
    if ds != [] {
      assert forall k | 0 <= k < |ds| - 1 :: ds[1..][k] == ds[k + 1];
      HexDigitsPrefixOfDigits(ds[1..]);
      assert ds == [ds[0]] + ds[1..];
    }
  }

  /**
   * `parseInt(s, 16)` as the steps ECMA-262 lists: skip leading white space,
   * read an optional sign and an optional `0x`/`0X` prefix, then the longest
   * run of hex digits; NaN when that run is empty.
   */
  function ParseIntHexSteps(s: string): Option<int> {
    var t := TrimStart(s);
    var negative := t != [] && t[0] == '-';
    SignedHexValue(negative, HexDigitsPrefix(StripHexPrefix(StripSign(t))))
  }

  /** The number a run of digits denotes, negated after a minus sign; NaN for no digits. */
  function SignedHexValue(negative: bool, digits: string): Option<int> {
    var magnitude: int := HexValue(digits);
    if digits == [] then None
    else if negative then Some(-magnitude)
    else Some(magnitude)
  }

  /** Drops one leading `+` or `-`. */
  function StripSign(t: string): string {
    if t != [] && (t[0] == '-' || t[0] == '+') then t[1..] else t
  }

  /** Drops a leading `0x` or `0X`, as parseInt does for radix 16. */
  function StripHexPrefix(u: string): string {
    if |u| >= 2 && u[0] == '0' && (u[1] == 'x' || u[1] == 'X') then u[2..] else u
  }

  /** How far parseInt has read: white space, then the sign, then the prefix and the digits. */
  datatype HexScan = SkipSpace | AfterSign | InDigits

  function ScanRank(phase: HexScan): nat {
    match phase
    case SkipSpace => 2
    case AfterSign => 1
    case InDigits => 0
  }

  /**
   * parseInt read one character at a time; `digits` holds the hex digits
   * read so far and `negative` whether a minus sign was read.
   */
  function Scan(s: string, phase: HexScan, negative: bool, digits: string): Option<int>
    decreases |s|, ScanRank(phase)
  {
    match phase
    case SkipSpace =>
      if s != [] && IsJsWhiteSpace(s[0]) then Scan(s[1..], SkipSpace, negative, digits)
      else if s != [] && (s[0] == '-' || s[0] == '+') then Scan(s[1..], AfterSign, s[0] == '-', digits)
      else Scan(s, AfterSign, negative, digits)
    case AfterSign =>
      if |s| >= 2 && s[0] == '0' && (s[1] == 'x' || s[1] == 'X') then Scan(s[2..], InDigits, negative, digits)
      else Scan(s, InDigits, negative, digits)
    case InDigits =>
      if s != [] && IsHexDigit(s[0]) then Scan(s[1..], InDigits, negative, digits + [s[0]])
      else SignedHexValue(negative, digits)
  }

  /** `parseInt(s, 16)`; `None` is NaN. */
  function ParseIntHex(s: string): Option<int> {
    Scan(s, SkipSpace, false, [])
  }

  /** Reading digits appends the longest run of hex digits to those already read. */
  lemma {:induction false} ScanDigits(s: string, negative: bool, digits: string)
    ensures Scan(s, InDigits, negative, digits) == SignedHexValue(negative, digits + HexDigitsPrefix(s))
  {
    if s != [] && IsHexDigit(s[0]) {
      ScanDigits(s[1..], negative, digits + [s[0]]);
      assert digits + [s[0]] + HexDigitsPrefix(s[1..]) == digits + HexDigitsPrefix(s);
    } else {
      assert digits + HexDigitsPrefix(s) == digits;
    }
  }

  /** The character scanner computes exactly the steps of the standard, on every string. */
  lemma {:induction false} ParseIntHexMatchesSteps(s: string)
    ensures ParseIntHex(s) == ParseIntHexSteps(s)
  {
    if s != [] && IsJsWhiteSpace(s[0]) {
      ParseIntHexMatchesSteps(s[1..]);
    } else {
      var negative := s != [] && s[0] == '-';
      var u := StripSign(s);
      assert TrimStart(s) == s;
      assert Scan(s, SkipSpace, false, []) == Scan(u, AfterSign, negative, []);
      assert Scan(u, AfterSign, negative, []) == Scan(StripHexPrefix(u), InDigits, negative, []);
      ScanDigits(StripHexPrefix(u), negative, []);
      assert [] + HexDigitsPrefix(StripHexPrefix(u)) == HexDigitsPrefix(StripHexPrefix(u));
    }
  }

  /** On a string of hex digits alone parseInt is NaN exactly when the string is empty, else its value. */
  lemma ParseIntHexOfDigits(ds: string)
    requires AllHexDigits(ds)
    ensures ParseIntHex(ds) == if ds == [] then None else Some(HexValue(ds))
  {
    if ds != [] {
      assert !IsJsWhiteSpace(ds[0]) && IsHexDigit(ds[0]);
      assert TrimStart(ds) == ds;
      assert StripSign(ds) == ds;
      assert |ds| >= 2 ==> IsHexDigit(ds[1]);
      assert StripHexPrefix(ds) == ds;
      HexDigitsPrefixOfDigits(ds);
      ParseIntHexMatchesSteps(ds);
    }
  }

  /** parseInt reads past a `0x` prefix, so a slice holding only the prefix is NaN. */
  lemma ParseIntHexBarePrefix()
    ensures ParseIntHex("0x") == None
  {
  }

  /** Leading white space is skipped before the digits. */
  lemma ParseIntHexLeadingSpace()
    ensures ParseIntHex(" f") == Some(15)
  {
  }

  /** A leading minus sign negates the value. */
  lemma ParseIntHexMinus()
    ensures ParseIntHex("-f") == Some(-15)
  {
  }

  /** parseInt stops at the first character that is not a hex digit. */
  lemma ParseIntHexStopsAtNonDigit()
    ensures ParseIntHex("1g") == Some(1)
  {
    var s, g, one := "1g", "g", "1";
    assert s[0] == '1' && s[1] == 'g' && !IsJsWhiteSpace(s[0]);
    assert s[1..] == g && [] + [s[0]] == one;
    assert Scan(s, SkipSpace, false, []) == Scan(s, AfterSign, false, []) == Scan(s, InDigits, false, []);
    assert Scan(s, InDigits, false, []) == Scan(g, InDigits, false, one);
    assert Scan(g, InDigits, false, one) == SignedHexValue(false, one);
    assert HexValue(one) == 1;
  }

  predicate IsDecimalDigit(c: char) {
    '0' <= c <= '9'
  }

  predicate AllDecimalDigits(s: string) {
    forall k | 0 <= k < |s| :: IsDecimalDigit(s[k])
  }

  /** The value of a string of decimal digits, most significant digit first. */
  function DecimalValue(ds: string): nat
    requires AllDecimalDigits(ds)
  {
    if ds == [] then 0 else DecimalValue(ds[..|ds| - 1]) * 10 + (ds[|ds| - 1] as int - '0' as int)
  }

  /** The shortest decimal digits of `n`. */
  function NatDecimal(n: nat): string {
    var d := ['0' + (n % 10) as char];
    if n < 10 then d else NatDecimal(n / 10) + d
  }

  /** Number to text as in a template literal: a minus sign for negatives, NaN spelled out. */
  function NumberText(v: Option<int>): string {
    match v
    case None => "NaN"
    case Some(n) => if n < 0 then "-" + NatDecimal(-n) else NatDecimal(n)
  }

  /** The decimal text of a number is a non-empty string of digits without a leading zero that reads back as the number. */
  lemma {:induction false} NatDecimalRoundTrip(n: nat)
    ensures AllDecimalDigits(NatDecimal(n)) && NatDecimal(n) != []
    ensures |NatDecimal(n)| > 1 ==> NatDecimal(n)[0] != '0'
    ensures DecimalValue(NatDecimal(n)) == n
  {
    var s := NatDecimal(n);
    if n >= 10 {
      NatDecimalRoundTrip(n / 10);
      assert s[..|s| - 1] == NatDecimal(n / 10);
      assert s[0] == NatDecimal(n / 10)[0];
    }
  }
}
