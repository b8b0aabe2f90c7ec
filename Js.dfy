/** JavaScript runtime behaviour the application relies on: `undefined`
    as `Option`, JSON request values and their truthiness, `String(...)`
    on booleans and integers, `String.prototype.split` with a one-character
    separator, and the global `parseInt` with no radix. */
module Js {

  /** `undefined` (None) or a value. */
  datatype Option<T> = None | Some(value: T)

  /** The value of one property in `{ ...current, ...patch }`: the patch's
      when it has the property. */
  function Pick<T>(patch: Option<T>, current: T): T {
    if patch.Some? then patch.value else current
  }

  function PickOptional<T>(patch: Option<T>, current: Option<T>): Option<T> {
    if patch.Some? then patch else current
  }

  /** A JSON value as it arrives in a parsed request body. Numbers are
      integers here; the contents of arrays and objects are never read. */
  datatype Json = JString(s: string) | JBool(b: bool) | JNumber(n: int) | JNull | JArrayOrObject

  /** JavaScript truthiness of a string. */
  predicate StringTruthy(s: string) {
    s != ""
  }

  /** JavaScript truthiness of a possibly-undefined JSON value. */
  predicate Truthy(v: Option<Json>) {
    match v
    case None => false
    case Some(JString(s)) => StringTruthy(s)
    case Some(JBool(b)) => b
    case Some(JNumber(n)) => n != 0
    case Some(JNull) => false
    case Some(JArrayOrObject) => true
  }

  /** `String(b)` for a boolean. */
  function BoolToString(b: bool): (r: string)
    ensures r == "true" <==> b
  {
    if b then "true" else "false"
  }

  /** `s === "true"`, the decoding the client applies to boolean settings. */
  function StringIsTrue(s: string): bool {
    s == "true"
  }

  lemma BoolStringRoundTrip(b: bool)
    ensures StringIsTrue(BoolToString(b)) == b
  {
  }

  function StartsWith(s: string, prefix: string): bool {
    |prefix| <= |s| && s[..|prefix|] == prefix
  }

  // ---------------------------------------------------------------------
  // String.prototype.split with a one-character separator

  /** `s.split(c)`: the pieces between occurrences of `c`; there is always
      at least one piece, and `k` separators give `k + 1` pieces. */
  function Split(s: string, c: char): (r: seq<string>)
    ensures |r| >= 1
    ensures |r| == 1 <==> c !in s
    ensures forall i :: 0 <= i < |r| ==> c !in r[i]
  {
    if |s| == 0 then [""]
    else
      var rest := Split(s[1..], c);
      if s[0] == c then [""] + rest
      else [[s[0]] + rest[0]] + rest[1..]
  }

  /** Splitting at the first separator: the first piece is everything before it. */
  lemma {:induction false} SplitAtFirst(a: string, c: char, b: string)
    requires c !in a
    ensures Split(a + [c] + b, c) == [a] + Split(b, c)
  {
    if |a| == 0 {
      assert a + [c] + b == [c] + b;
      assert ([c] + b)[1..] == b;
    } else {
      assert (a + [c] + b)[1..] == a[1..] + [c] + b;
      SplitAtFirst(a[1..], c, b);
      assert [a[0]] + a[1..] == a;
    }
  }

  /** Without the separator, splitting yields the whole string. */
  lemma {:induction false} SplitWithout(s: string, c: char)
    requires c !in s
    ensures Split(s, c) == [s]
  {
    if |s| > 0 {
      SplitWithout(s[1..], c);
      assert [s[0]] + s[1..] == s;
    }
  }

  // ---------------------------------------------------------------------
  // Decimal rendering of integers, as in `${n}` and String(n)

  function DigitChar(d: nat): (c: char)
    requires d < 10
    ensures '0' <= c <= '9' && c as int - '0' as int == d
  {
    ('0' as int + d) as char
  }

  /** The decimal digits of `n`, most significant first, with no leading zero. */
  function NatToString(n: nat): (r: string)
    ensures |r| >= 1
    ensures forall i :: 0 <= i < |r| ==> '0' <= r[i] <= '9'
  {
    if n < 10 then [DigitChar(n)] else NatToString(n / 10) + [DigitChar(n % 10)]
  }

  function IntToString(n: int): string {
    if n < 0 then "-" + NatToString(-n) else NatToString(n)
  }

  // ---------------------------------------------------------------------
  // parseInt(s) with no radix

  /** The white space and line terminators `parseInt` skips before the number:
      tab, the line feed, vertical tab, form feed and carriage return, every
      space separator of Unicode category Zs (space, no-break space, ogham
      space mark, U+2000 to U+200A, narrow no-break space, medium
      mathematical space, ideographic space), the line and paragraph
      separators and the byte-order mark. */
  predicate IsSpace(c: char) {
    c in {'\t', '\n', '\U{000B}', '\U{000C}', '\r', ' ', '\U{00A0}', '\U{1680}', '\U{202F}', '\U{205F}', '\U{3000}', '\U{2028}', '\U{2029}', '\U{FEFF}'}
    || ('\U{2000}' <= c <= '\U{200A}')
  }

  function TrimStart(s: string): (r: string)
    ensures |r| <= |s|
    ensures |r| > 0 ==> !IsSpace(r[0])
  {
    if |s| > 0 && IsSpace(s[0]) then TrimStart(s[1..]) else s
  }

  /** The value of `c` as a digit in `radix` (10 or 16), or `radix` if it is none. */
  function DigitValue(c: char, radix: nat): (d: nat)
    requires radix == 10 || radix == 16
    ensures d <= radix
  {
    if '0' <= c <= '9' then c as nat - '0' as nat
    else if radix == 16 && 'a' <= c <= 'f' then c as nat - 'a' as nat + 10
    else if radix == 16 && 'A' <= c <= 'F' then c as nat - 'A' as nat + 10
    else radix
  }

  /** The length of the longest prefix of `s` made of digits in `radix`. */
  function DigitRun(s: string, radix: nat): (n: nat)
    requires radix == 10 || radix == 16
    ensures n <= |s|
    ensures forall i :: 0 <= i < n ==> DigitValue(s[i], radix) < radix
    ensures n < |s| ==> DigitValue(s[n], radix) == radix
  {
    if |s| > 0 && DigitValue(s[0], radix) < radix then 1 + DigitRun(s[1..], radix) else 0
  }

  /** The value of a string of digits in `radix`. */
  function DigitsValue(z: string, radix: nat): nat
    requires radix == 10 || radix == 16
  {
    if |z| == 0 then 0
    else DigitsValue(z[..|z| - 1], radix) * radix + (DigitValue(z[|z| - 1], radix) % radix)
  }

  /** The value of the longest run of digits in `radix` at the start of
      `v`; anything after it is ignored. None stands for NaN (no digit). */
  function LeadingDigits(v: string, radix: nat): Option<int>
    requires radix == 10 || radix == 16
  {
    var n := DigitRun(v, radix);
    if n == 0 then None else Some(DigitsValue(v[..n], radix))
  }

  predicate HexPrefix(u: string) {
    |u| >= 2 && u[0] == '0' && (u[1] == 'x' || u[1] == 'X')
  }

  /** The unsigned part of `parseInt`: a `0x`/`0X` prefix selects
      hexadecimal, otherwise the digits are decimal. */
  function ParseMagnitude(u: string): Option<int> {
    if HexPrefix(u) then LeadingDigits(u[2..], 16) else LeadingDigits(u, 10)
  }

  /** `parseInt(s)`: leading white space is skipped and one sign is accepted
      before the magnitude. None stands for NaN. */
  function ParseInt(s: string): Option<int> {
    ParseSigned(TrimStart(s))
  }

  function ParseSigned(t: string): Option<int> {
    if |t| > 0 && t[0] == '-' then Negate(ParseMagnitude(t[1..]))
    else if |t| > 0 && t[0] == '+' then ParseMagnitude(t[1..])
    else ParseMagnitude(t)
  }

  function Negate(v: Option<int>): Option<int> {
    if v.Some? then Some(-v.value) else None
  }

  lemma {:induction false} NatToStringValue(n: nat)
    ensures DigitsValue(NatToString(n), 10) == n
  {
    var r := NatToString(n);
    if n >= 10 {
      var q, d := n / 10, n % 10;
      NatToStringValue(q);
      assert r[..|r| - 1] == NatToString(q);
      assert DigitValue(r[|r| - 1], 10) == d;
      assert DigitsValue(r, 10) == q * 10 + d;
    } else {
      assert r[..0] == "";
    }
  }

  lemma DigitRunAll(z: string)
    requires forall i :: 0 <= i < |z| ==> '0' <= z[i] <= '9'
    ensures DigitRun(z, 10) == |z|
  {
    if |z| > 0 {
      DigitRunAll(z[1..]);
    }
  }

  lemma MagnitudeOfDigits(z: string)
    requires |z| >= 1
    requires forall i :: 0 <= i < |z| ==> '0' <= z[i] <= '9'
    ensures ParseMagnitude(z) == Some(DigitsValue(z, 10))
  {
    assert !HexPrefix(z) by {
      if |z| >= 2 {
        assert z[1] != 'x' && z[1] != 'X';
      }
    }
    DigitRunAll(z);
    assert z[..|z|] == z;
  }

  lemma MagnitudeOfNatToString(n: nat)
    ensures ParseMagnitude(NatToString(n)) == Some(n)
  {
    MagnitudeOfDigits(NatToString(n));
    NatToStringValue(n);
  }

  /** A string that starts with neither white space nor a sign is read as
      its magnitude. */
  lemma ParseIntUnsigned(u: string, d: int)
    requires |u| >= 1 && !IsSpace(u[0]) && u[0] != '-' && u[0] != '+'
    requires ParseMagnitude(u) == Some(d)
    ensures ParseInt(u) == Some(d)
  {
    assert TrimStart(u) == u;
  }

  /** A leading '-' negates the magnitude that follows. */
  lemma ParseIntNegative(u: string, d: int)
    requires ParseMagnitude(u) == Some(d)
    ensures ParseInt("-" + u) == Some(-d)
  {
    var s := "-" + u;
    assert s[0] == '-' && s[1..] == u;
    assert TrimStart(s) == s;
  }

  /** parseInt reads back what String(n) wrote: the route parameter for a
      numeric id is that id. */
  lemma ParseIntOfIntToString(n: int)
    ensures ParseInt(IntToString(n)) == Some(n)
  {
    if n < 0 {
      MagnitudeOfNatToString(-n);
      ParseIntNegative(NatToString(-n), -n);
    } else {
      var z := NatToString(n);
      MagnitudeOfNatToString(n);
      assert '0' <= z[0] <= '9';
      ParseIntUnsigned(z, n);
    }
  }

  /** A suffix that cannot continue the decimal text of n: it starts with a
      non-digit, and after a lone "0" not with the `x` of a hex prefix. */
  predicate EndsNumber(n: int, t: string) {
    |t| > 0 && !('0' <= t[0] <= '9') && (n == 0 ==> t[0] != 'x' && t[0] != 'X')
  }

  /** The digit run of a string of digits followed by a non-digit is
      exactly those digits. */
  lemma {:induction false} DigitRunBeforeNonDigit(z: string, t: string)
    requires forall i :: 0 <= i < |z| ==> '0' <= z[i] <= '9'
    requires |t| > 0 && !('0' <= t[0] <= '9')
    ensures DigitRun(z + t, 10) == |z|
  {
    if |z| == 0 {
      assert (z + t)[0] == t[0];
    } else {
      assert (z + t)[1..] == z[1..] + t;
      DigitRunBeforeNonDigit(z[1..], t);
    }
  }

  /** The digits of m followed by a suffix that ends the number read as m. */
  lemma MagnitudeBeforeSuffix(m: nat, t: string)
    requires EndsNumber(m, t)
    ensures ParseMagnitude(NatToString(m) + t) == Some(m)
  {
    var z := NatToString(m);
    DigitRunBeforeNonDigit(z, t);
    assert (z + t)[..|z|] == z;
    NatToStringValue(m);
    assert !HexPrefix(z + t) by {
      if |z| >= 2 {
        assert (z + t)[1] == z[1];
      } else {
        assert (z + t)[1] == t[0];
        if m != 0 {
          MagnitudeOfNatToString(m);
          assert z[0] != '0';
        }
      }
    }
  }

  lemma ParseNegativeSuffix(m: nat, t: string)
    requires m > 0 && EndsNumber(m, t)
    ensures ParseInt(IntToString(-(m as int)) + t) == Some(-(m as int))
  {
    var z := NatToString(m);
    MagnitudeBeforeSuffix(m, t);
    assert IntToString(-(m as int)) + t == "-" + (z + t);
    ParseIntNegative(z + t, m);
  }

  lemma ParseUnsignedSuffix(m: nat, t: string)
    requires EndsNumber(m, t)
    ensures ParseInt(NatToString(m) + t) == Some(m)
  {
    var z := NatToString(m);
    MagnitudeBeforeSuffix(m, t);
    assert (z + t)[0] == z[0];
    ParseIntUnsigned(z + t, m);
  }

  /** parseInt stops at the first non-digit: the decimal text of any
      integer followed by anything that cannot continue it reads back as
      that integer ("7abc" is 7, "-12 days" is -12), not NaN. */
  lemma {:induction false} ParseIntIgnoresSuffix(n: int, t: string)
    requires EndsNumber(n, t)
    ensures ParseInt(IntToString(n) + t) == Some(n)
  {
    if n < 0 {
      ParseNegativeSuffix(-n, t);
    } else {
      ParseUnsignedSuffix(n, t);
    }
  }

  /** The exception the suffix condition leaves out: after "0" an `x`
      starts a hexadecimal number, so "0x1f" is 31 and not 0. */
  lemma ParseIntHexAfterZero()
    ensures ParseInt("0x1f") == Some(31)
  {
    var s := "0x1f";
    assert TrimStart(s) == s;
    assert HexPrefix(s);
    var u := s[2..];
    assert u == "1f";
    assert DigitRun(u[2..], 16) == 0;
    assert DigitRun(u[1..], 16) == 1;
    assert DigitRun(u, 16) == 2;
    assert u[..2] == u;
    assert DigitsValue(u[..1], 16) == 1 by {
      assert u[..1][..0] == "";
    }
    assert u[..2][..1] == u[..1];
  }

  /** parseInt of `${n}` followed by a space and words reads back n, as
      for a label such as "3 days ago". */
  lemma ParseIntOfLabel(n: int, t: string)
    requires |t| > 0 && t[0] == ' '
    ensures ParseInt(IntToString(n) + t) == Some(n)
  {
    ParseIntIgnoresSuffix(n, t);
  }
}
