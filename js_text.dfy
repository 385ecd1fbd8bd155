/**
 * The few JavaScript string and number primitives the application relies on:
 * decimal `toString` of a non-negative integer, `padStart(2, '0')`,
 * `parseInt` without a radix, the `x || d` default idiom, and splitting a
 * string at the first occurrence of a separator.
 */
module JsText {
  import opened Wrappers

  predicate IsDigit(c: char) { '0' <= c <= '9' }

  predicate AllDigits(s: string) { forall i :: 0 <= i < |s| ==> IsDigit(s[i]) }

  /** A non-empty run of decimal digits, as the formatters produce for each field. */
  predicate IsField(s: string) { |s| > 0 && AllDigits(s) }

  function DigitChar(d: nat): (c: char)
    requires d < 10
    ensures IsDigit(c) && CharValue(c) == d
  {
    ('0' as int + d) as char
  }

  /** The value of `c` as a digit in any radix up to 36, or 36 when it is no digit at all. */
  function CharValue(c: char): (v: nat)
    ensures v <= 36
    ensures v < 10 <==> IsDigit(c)
  {
    if '0' <= c <= '9' then c as int - '0' as int
    else if 'a' <= c <= 'z' then c as int - 'a' as int + 10
    else if 'A' <= c <= 'Z' then c as int - 'A' as int + 10
    else 36
  }

  /** The value of a digit string read most significant digit first. */
  function DigitsValue(s: string, radix: nat): nat
  {
    if s == [] then 0 else DigitsValue(s[..|s| - 1], radix) * radix + CharValue(s[|s| - 1])
  }

  /** Decimal value of a field of digits. */
  function FieldValue(s: string): nat { DigitsValue(s, 10) }

  /** `n.toString()` for a non-negative integer: shortest decimal form, no sign. */
  function DecimalString(n: nat): (s: string)
    ensures IsField(s)
    ensures |s| == 1 <==> n < 10
    ensures 10 <= n < 100 ==> |s| == 2
    decreases n
  {
    if n < 10 then [DigitChar(n)] else DecimalString(n / 10) + [DigitChar(n % 10)]
  }

  lemma {:induction false} DecimalStringRoundTrip(n: nat)
    ensures FieldValue(DecimalString(n)) == n
    decreases n
  {
    var s := DecimalString(n);
    if n < 10 {
      assert s[..0] == [];
      assert DigitsValue(s, 10) == DigitsValue(s[..0], 10) * 10 + CharValue(s[0]);
    } else {
      DecimalStringRoundTrip(n / 10);
      assert s[..|s| - 1] == DecimalString(n / 10);
    }
  }

  /** `s.padStart(2, '0')`. */
  function PadStart2(s: string): (r: string)
    ensures |r| == Max(2, |s|)
    ensures r[|r| - |s|..] == s
    ensures forall i :: 0 <= i < |r| - |s| ==> r[i] == '0'
  {
    if |s| == 0 then "00" else if |s| == 1 then "0" + s else s
  }

  /** A number shown as at least two digits, as the countdown clock does. */
  function TwoDigits(n: nat): (r: string)
    ensures IsField(r) && |r| >= 2
    ensures n < 100 ==> |r| == 2
  {
    PadStart2(DecimalString(n))
  }

  lemma TwoDigitsRoundTrip(n: nat)
    ensures FieldValue(TwoDigits(n)) == n
  {
    DecimalStringRoundTrip(n);
    var d := DecimalString(n);
    if |d| == 1 {
      var r := TwoDigits(n);
      assert r == ['0', d[0]];
      assert r[..1] == ['0'] && r[..1][..0] == [];
      assert FieldValue(r[..1]) == 0;
      assert d[..0] == [];
      assert FieldValue(d) == CharValue(d[0]);
    }
  }

  // ----- parseInt -----

  /** The characters JavaScript's `parseInt` skips before the number (WhiteSpace and LineTerminator). */
  predicate IsJsSpace(c: char)
  {
    c == ' ' || c == '\t' || c == '\n' || c == '\r' || c == '\U{B}' || c == '\U{C}'
    || c == '\U{A0}' || c == '\U{FEFF}' || c == '\U{1680}' || ('\U{2000}' <= c <= '\U{200A}')
    || c == '\U{2028}' || c == '\U{2029}' || c == '\U{202F}' || c == '\U{205F}' || c == '\U{3000}'
  }

  function TrimStart(s: string): (r: string)
    ensures r == [] || !IsJsSpace(r[0])
    ensures |r| <= |s| && r == s[|s| - |r|..]
  {
    if s != [] && IsJsSpace(s[0]) then TrimStart(s[1..]) else s
  }

  /** Length of the longest prefix of `s` made of digits valid in `radix`. */
  function DigitPrefixLength(s: string, radix: nat): (k: nat)
    ensures k <= |s|
    ensures forall i :: 0 <= i < k ==> CharValue(s[i]) < radix
    ensures k < |s| ==> CharValue(s[k]) >= radix
  {
    if s != [] && CharValue(s[0]) < radix then 1 + DigitPrefixLength(s[1..], radix) else 0
  }

  /**
   * `parseInt(s)` with no radix argument; `None` stands for `NaN`.  Leading
   * white space is skipped, one sign is read, a `0x`/`0X` prefix switches to
   * radix 16, and the longest run of digits that follows is the number.
   */
  function ParseInt(s: string): (r: Option<int>)
    ensures TrimStart(s) == [] ==> r == None
    ensures r.Some? && r.value < 0 ==> TrimStart(s)[0] == '-'
  {
    var t := TrimStart(s);
    var negative := t != [] && t[0] == '-';
    var u := if t != [] && (t[0] == '-' || t[0] == '+') then t[1..] else t;
    var hex := |u| >= 2 && u[0] == '0' && (u[1] == 'x' || u[1] == 'X');
    var radix := if hex then 16 else 10;
    var digits := if hex then u[2..] else u;
    var k := DigitPrefixLength(digits, radix);
    if k == 0 then None
    else
      var v: int := DigitsValue(digits[..k], radix);
      Some(if negative then -v else v)
  }

  /**
   * What `parseInt` reads from the decimal form of `n` followed by any text
   * that does not continue the number: exactly `n`.
   */
  lemma ParseIntDecimal(n: nat, rest: string)
    requires rest == [] || !IsDigit(rest[0])
    requires n == 0 ==> rest == [] || (rest[0] != 'x' && rest[0] != 'X')
    ensures ParseInt(DecimalString(n) + rest) == Some(n)
  {
    var d := DecimalString(n);
    var s := d + rest;
    assert s[0] == d[0];
    assert !IsJsSpace(s[0]);
    assert TrimStart(s) == s;
    assert !(s[0] == '-' || s[0] == '+');
    assert !(|s| >= 2 && s[0] == '0' && (s[1] == 'x' || s[1] == 'X')) by {
      if |s| >= 2 && s[0] == '0' {
        NoLeadingZero(n);
        assert s[1] == rest[0];
      }
    }
    DigitPrefixOfField(d, rest);
    assert s[..|d|] == d;
    DecimalStringRoundTrip(n);
  }

  lemma NoLeadingZero(n: nat)
    ensures DecimalString(n)[0] == '0' ==> n == 0
  {
    if n >= 10 {
      NoLeadingZero(n / 10);
      assert DecimalString(n)[0] == DecimalString(n / 10)[0];
    }
  }

  lemma {:induction false} DigitPrefixOfField(d: string, rest: string)
    requires AllDigits(d)
    requires rest == [] || !IsDigit(rest[0])
    ensures DigitPrefixLength(d + rest, 10) == |d|
    decreases |d|
  {
    if d == [] {
      assert d + rest == rest;
    } else {
      assert (d + rest)[1..] == d[1..] + rest;
      DigitPrefixOfField(d[1..], rest);
    }
  }

  /** Text that starts with something other than blank, sign or digit is `NaN`, as `"undefined"` is. */
  lemma ParseIntNonNumeric(s: string)
    requires s != [] && !IsJsSpace(s[0]) && s[0] != '-' && s[0] != '+' && !IsDigit(s[0])
    ensures ParseInt(s) == None
  {
    assert TrimStart(s) == s;
    assert DigitPrefixLength(s, 10) == 0;
  }

  /** JavaScript's `x || d` for a number `x`: zero is falsy and gives `d`. */
  function Or(x: int, d: int): int { if x != 0 then x else d }

  /** `parseInt(s) || d`: both `NaN` and `0` are falsy, so both give `d`. */
  function ParsedOr(s: string, d: int): (r: int)
    ensures r == d || ParseInt(s) == Some(r)
    ensures d != 0 ==> r != 0
  {
    match ParseInt(s)
    case None => d
    case Some(x) => Or(x, d)
  }

  // ----- splitting -----

  /** `s` cut at the first occurrence of `sep`, or `None` when `sep` does not occur. */
  function SplitFirst(s: string, sep: char): (r: Option<(string, string)>)
    ensures r.None? <==> sep !in s
    ensures r.Some? ==> s == r.value.0 + [sep] + r.value.1 && sep !in r.value.0
  {
    if s == [] then None
    else if s[0] == sep then Some(([], s[1..]))
    else
      match SplitFirst(s[1..], sep)
      case None => None
      case Some(p) => Some(([s[0]] + p.0, p.1))
  }

  /** Splitting text built around a separator gives back its two halves. */
  lemma {:induction false} SplitFirstJoin(a: string, sep: char, b: string)
    requires sep !in a
    ensures SplitFirst(a + [sep] + b, sep) == Some((a, b))
    decreases |a|
  {
    if a == [] {
      assert a + [sep] + b == [sep] + b;
    } else {
      assert (a + [sep] + b)[1..] == a[1..] + [sep] + b;
      SplitFirstJoin(a[1..], sep, b);
      assert [a[0]] + a[1..] == a;
    }
  }

  lemma DigitsHaveNoSeparator(s: string, sep: char)
    requires AllDigits(s) && !IsDigit(sep)
    ensures sep !in s
  {
  }
}
