/** JavaScript's `parseInt` for the two radixes the extension uses, the
    extension's `stringToInt` on top of it, and the number-to-text and
    32-bit conversions that the packing step depends on. A NaN result is `None`. */
module JsNumber {
  import opened Wrappers
  import opened JsText

  type Radix = r: nat | r == 10 || r == 16 witness 10

  predicate IsDigit(c: char, radix: Radix)
  {
    ('0' <= c <= '9') || (radix == 16 && ('a' <= c <= 'f' || 'A' <= c <= 'F'))
  }

  predicate AllDigits(s: string, radix: Radix)
  {
    forall i :: 0 <= i < |s| ==> IsDigit(s[i], radix)
  }

  function DigitValue(c: char, radix: Radix): (d: nat)
    requires IsDigit(c, radix)
    ensures d < radix
  {
    if '0' <= c <= '9' then c as int - '0' as int
    else if 'a' <= c <= 'f' then c as int - 'a' as int + 10
    else c as int - 'A' as int + 10
  }

  /** The digit for `d`; hexadecimal letters in upper case. */
  function DigitChar(d: nat, radix: Radix): (c: char)
    requires d < radix
    ensures IsDigit(c, radix) && DigitValue(c, radix) == d
  {
    if d < 10 then ('0' as int + d) as char else ('A' as int + d - 10) as char
  }

  /** The number of digits in `s` from `p` on. */
  function DigitRun(s: string, p: nat, radix: Radix): (n: nat)
    requires p <= |s|
    ensures p + n <= |s|
    ensures forall i :: p <= i < p + n ==> IsDigit(s[i], radix)
    ensures p + n < |s| ==> !IsDigit(s[p + n], radix)
    decreases |s| - p
  {
    if p < |s| && IsDigit(s[p], radix) then 1 + DigitRun(s, p + 1, radix) else 0
  }

  /** The value of a digit string, most significant digit first. */
  function DigitsValue(ds: string, radix: Radix): nat
    requires AllDigits(ds, radix)
  {
    if ds == [] then 0
    else
      var high, low := DigitsValue(ds[..|ds| - 1], radix), DigitValue(ds[|ds| - 1], radix);
      if radix == 10 then high * 10 + low else high * 16 + low
  }

  /** The value of the longest run of digits at `p`, or NaN when there is no
      digit at `p`; anything after the run is ignored. */
  function ParseDigits(s: string, p: nat, radix: Radix): Option<int>
    requires p <= |s|
  {
    var n := DigitRun(s, p, radix);
    assert forall i :: p <= i < p + n ==> s[p..p + n][i - p] == s[i];
    if n == 0 then None else Some(DigitsValue(s[p..p + n], radix))
  }

  /** `0x` or `0X` at position `p` of `s`. */
  predicate HexPrefixAt(s: string, p: nat)
  {
    p + 2 <= |s| && s[p] == '0' && (s[p + 1] == 'x' || s[p + 1] == 'X')
  }

  /** `parseInt(value, radix)`: leading white space is skipped, then one sign,
      then (for radix 16 only) a `0x`/`0X`, then the longest digit run. */
  function ParseInt(value: string, radix: Radix): Option<int>
  {
    var start := SpaceRun(value, 0);
    var negative := start < |value| && value[start] == '-';
    var signed := start < |value| && (value[start] == '-' || value[start] == '+');
    var unsigned := if signed then start + 1 else start;
    var digits := if radix == 16 && HexPrefixAt(value, unsigned) then unsigned + 2 else unsigned;
    match ParseDigits(value, digits, radix)
    case None => None
    case Some(n) => Some(if negative then -n else n)
  }

  /** The extension's `stringToInt`: base 16 when the text itself starts with
      `0x` or `0X`, base 10 otherwise. */
  function StringToInt(value: string): Option<int>
  {
    ParseInt(value, if HexPrefixAt(value, 0) then 16 else 10)
  }

  /** The digits of `n` in `radix`, without leading zeros. */
  function NatDigits(n: nat, radix: Radix): (ds: string)
    ensures |ds| > 0 && AllDigits(ds, radix)
    ensures DigitsValue(ds, radix) == n
    ensures |ds| > 1 ==> ds[0] != '0'
    decreases n
  {
    if n < radix then [DigitChar(n, radix)]
    else
      var high := if radix == 10 then n / 10 else n / 16;
      var low := if radix == 10 then n % 10 else n % 16;
      var ds := NatDigits(high, radix) + [DigitChar(low, radix)];
      assert ds[..|ds| - 1] == NatDigits(high, radix);
      ds
  }

  /** `n.toString()` for an integral number. */
  function IntToDecimal(n: int): string
  {
    if n < 0 then "-" + NatDigits(-n, 10) else NatDigits(n, 10)
  }

  /** How a number, possibly NaN, reads when put in a template string or joined. */
  function NumberText(v: Option<int>): string
  {
    match v
    case None => "NaN"
    case Some(n) => IntToDecimal(n)
  }

  /** Arithmetic on numbers that may be NaN. */
  function Plus(a: Option<int>, b: Option<int>): (r: Option<int>)
    ensures r.Some? <==> a.Some? && b.Some?
  {
    if a.Some? && b.Some? then Some(a.value + b.value) else None
  }

  function Minus(a: Option<int>, b: Option<int>): (r: Option<int>)
    ensures r.Some? <==> a.Some? && b.Some?
  {
    if a.Some? && b.Some? then Some(a.value - b.value) else None
  }

  const TwoTo31: int := 0x8000_0000
  const TwoTo32: int := 0x1_0000_0000

  /** ECMAScript ToInt32, what `>>` applies to its left operand: the one value in
      [-2^31, 2^31) that is congruent to `n` modulo 2^32. */
  function ToInt32(n: int): (r: int)
    ensures -TwoTo31 <= r < TwoTo31
    ensures (n - r) % TwoTo32 == 0
    ensures -TwoTo31 <= n < TwoTo31 ==> r == n
  {
    (n + TwoTo31) % TwoTo32 - TwoTo31
  }

  /** The digits of `pre + digits + rest` after `pre` read as `digits` when
      `rest` does not go on with a digit. */
  lemma {:induction false} DigitsAfter(pre: string, digits: string, rest: string, radix: Radix)
    requires |digits| > 0 && AllDigits(digits, radix)
    requires rest == [] || !IsDigit(rest[0], radix)
    ensures ParseDigits(pre + digits + rest, |pre|, radix) == Some(DigitsValue(digits, radix))
  {
    var s := pre + digits + rest;
    var p := |pre|;
    assert forall i :: p <= i < p + |digits| ==> s[i] == digits[i - p];
    assert p + |digits| < |s| ==> s[p + |digits|] == rest[0];
    assert DigitRun(s, p, radix) == |digits|;
    assert s[p..p + |digits|] == digits;
  }

  lemma NotSpace(c: char, radix: Radix)
    requires IsDigit(c, radix) || c == '-' || c == '+'
    ensures !IsJsSpace(c)
  {
  }

  /** A text that starts with decimal digits (and not with `0x`) is read in base 10
      up to its first non-digit, whatever follows. */
  lemma {:induction false} DecimalPrefixParsed(digits: string, rest: string)
    requires |digits| > 0 && AllDigits(digits, 10)
    requires rest == [] || !IsDigit(rest[0], 10)
    requires !HexPrefixAt(digits + rest, 0)
    ensures StringToInt(digits + rest) == Some(DigitsValue(digits, 10))
  {
    var s := digits + rest;
    NotSpace(s[0], 10);
    assert SpaceRun(s, 0) == 0;
    DigitsAfter([], digits, rest, 10);
    assert [] + digits + rest == s;
  }

  /** A text of decimal digits alone reads as their value. */
  lemma {:induction false} DecimalDigitsParsed(digits: string)
    requires |digits| > 0 && AllDigits(digits, 10)
    ensures StringToInt(digits) == Some(DigitsValue(digits, 10))
  {
    assert |digits| > 1 ==> IsDigit(digits[1], 10);
    DecimalPrefixParsed(digits, "");
    assert digits + "" == digits;
  }

  /** A minus sign before the digits negates the value. */
  lemma {:induction false} NegativeDecimalParsed(digits: string, rest: string)
    requires |digits| > 0 && AllDigits(digits, 10)
    requires rest == [] || !IsDigit(rest[0], 10)
    ensures StringToInt("-" + digits + rest) == Some(-(DigitsValue(digits, 10) as int))
  {
    var s := "-" + digits + rest;
    assert s[0] == '-';
    assert SpaceRun(s, 0) == 0;
    DigitsAfter("-", digits, rest, 10);
  }

  /** A text that starts with `0x` or `0X` is read in base 16 up to its first
      non-hexadecimal character, whatever follows. */
  lemma {:induction false} HexPrefixParsed(x: char, digits: string, rest: string)
    requires x == 'x' || x == 'X'
    requires |digits| > 0 && AllDigits(digits, 16)
    requires rest == [] || !IsDigit(rest[0], 16)
    ensures StringToInt(['0', x] + digits + rest) == Some(DigitsValue(digits, 16))
  {
    var s := ['0', x] + digits + rest;
    assert s[0] == '0' && s[1] == x;
    assert SpaceRun(s, 0) == 0;
    DigitsAfter(['0', x], digits, rest, 16);
  }

  /** `0x` followed by nothing but hexadecimal digits reads as their value. */
  lemma {:induction false} HexDigitsParsed(digits: string)
    requires |digits| > 0 && AllDigits(digits, 16)
    ensures StringToInt("0x" + digits) == Some(DigitsValue(digits, 16))
  {
    HexPrefixParsed('x', digits, "");
    assert ['0', 'x'] + digits + "" == "0x" + digits;
  }

  /** With the prefix `0x` and no hexadecimal digit after it the result is NaN;
      without the prefix, a text whose first character is no digit, sign or
      white space is NaN too. */
  lemma {:induction false} NoDigitIsNaN(value: string)
    requires || (HexPrefixAt(value, 0) && (|value| == 2 || !IsDigit(value[2], 16)))
             || (|value| > 0 && !IsDigit(value[0], 10) && !IsJsSpace(value[0])
                 && value[0] != '-' && value[0] != '+')
    ensures StringToInt(value) == None
  {
    if HexPrefixAt(value, 0) {
      NotSpace(value[0], 10);
    }
    assert SpaceRun(value, 0) == 0;
  }

  /** Reading back a number's decimal text gives the number: the round trip the
      options step depends on when it stores a size as text and parses it again. */
  lemma {:induction false} DecimalRoundTrip(n: int)
    ensures StringToInt(IntToDecimal(n)) == Some(n)
  {
    var ds := NatDigits(if n < 0 then -n else n, 10);
    if n < 0 {
      NegativeDecimalParsed(ds, "");
      assert "-" + ds + "" == IntToDecimal(n);
    } else {
      assert |ds| > 1 ==> IsDigit(ds[1], 10);
      DecimalPrefixParsed(ds, "");
      assert ds + "" == IntToDecimal(n);
    }
  }

  /** Reading back how a number prints gives the number, NaN included. */
  lemma {:induction false} NumberTextRoundTrip(v: Option<int>)
    ensures StringToInt(NumberText(v)) == v
  {
    if v.Some? {
      DecimalRoundTrip(v.value);
    } else {
      var nan := NumberText(v);
      assert nan[0] == 'N';
      NoDigitIsNaN(nan);
    }
  }

  /** A difference written out and read back, added to what it was taken
      from, gives the minuend again; NaN when either side is NaN. */
  lemma {:induction false} DifferenceReadBack(from: Option<int>, to: Option<int>)
    ensures Plus(from, StringToInt(NumberText(Minus(to, from)))) ==
      if from.Some? && to.Some? then to else None
  {
    NumberTextRoundTrip(Minus(to, from));
  }

  /** `0x` followed by a number's hexadecimal digits reads back as the number. */
  lemma {:induction false} HexRoundTrip(n: nat)
    ensures StringToInt("0x" + NatDigits(n, 16)) == Some(n)
  {
    HexDigitsParsed(NatDigits(n, 16));
  }

  /** Whether white space comes before the prefix decides the base: `" 0x10"`
      is read in base 10 and stops at the `x`, so it is zero. */
  lemma {:induction false} SpaceBeforeHexPrefix(c: char, x: char, rest: string)
    requires IsJsSpace(c) && (x == 'x' || x == 'X')
    ensures StringToInt([c, '0', x] + rest) == Some(0)
  {
    var s := [c, '0', x] + rest;
    assert s[0] == c && s[1] == '0' && !HexPrefixAt(s, 0);
    assert SpaceRun(s, 0) == 1;
    assert DigitsValue("0", 10) == 0;
    DigitsAfter([c], "0", [x] + rest, 10);
    assert [c] + "0" + ([x] + rest) == s;
  }
}
