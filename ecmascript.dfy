/** The pieces of the ECMAScript language the forms rely on: the `\s` class of
    regular expressions (WhiteSpace and LineTerminator, section 22.2.2.9 of
    ECMA-262), `String.prototype.startsWith`, the global `parseInt` (section
    19.2.5 of ECMA-262) with no radix argument, the global `parseFloat`
    (section 19.2.4) on integral numerals, and `Number.prototype.toString` on
    integers. */
module EcmaScript {

  import opened Types

  /** `\s`: TAB, VT, FF, SP, NBSP, ZWNBSP, the other space separators (Zs) of
      Unicode 15, and the four line terminators. */
  predicate IsWhitespace(c: char) {
    c in {'\t', '\n', '\U{000B}', '\U{000C}', '\r', ' ', '\U{00A0}', '\U{1680}',
          '\U{2028}', '\U{2029}', '\U{202F}', '\U{205F}', '\U{3000}', '\U{FEFF}'}
    || '\U{2000}' <= c <= '\U{200A}'
  }

  predicate NoWhitespace(s: string) {
    forall k | 0 <= k < |s| :: !IsWhitespace(s[k])
  }

  /** `s.replace(/\s/g, '')`: every whitespace character deleted, the rest kept in order. */
  function StripWhitespace(s: string): (r: string)
    ensures NoWhitespace(r)
    ensures |r| <= |s|
    ensures NoWhitespace(s) ==> r == s
  {
    if s == [] then []
    else if IsWhitespace(s[0]) then StripWhitespace(s[1..])
    else [s[0]] + StripWhitespace(s[1..])
  }

  /** Deleting whitespace distributes over concatenation. */
  lemma {:induction false} StripWhitespaceAppend(a: string, b: string)
    ensures StripWhitespace(a + b) == StripWhitespace(a) + StripWhitespace(b)
  {
    if a == [] {
      assert a + b == b;
    } else {
      assert (a + b)[1..] == a[1..] + b;
      StripWhitespaceAppend(a[1..], b);
    }
  }

  predicate StartsWith(s: string, prefix: string) {
    |prefix| <= |s| && s[..|prefix|] == prefix
  }

  /** `s.indexOf(c)` for a character that occurs: the first position holding it. */
  function IndexOf(s: string, c: char): (i: nat)
    requires c in s
    ensures i < |s| && s[i] == c && c !in s[..i]
  {
    if s[0] == c then 0
    else
      assert c in s[1..] by { var k :| 0 <= k < |s| && s[k] == c; assert s[1..][k - 1] == c; }
      var j := IndexOf(s[1..], c);
      assert s[..j + 1] == [s[0]] + s[1..][..j];
      j + 1
  }

  predicate IsDecimalDigit(c: char) { '0' <= c <= '9' }

  predicate AllDecimalDigits(s: string) {
    forall k | 0 <= k < |s| :: IsDecimalDigit(s[k])
  }

  function DigitValue(c: char): (d: nat)
    ensures IsDecimalDigit(c) ==> d == (c as int) - ('0' as int)
    ensures d < 16
  {
    if '0' <= c <= '9' then (c as int) - ('0' as int)
    else if 'a' <= c <= 'f' then (c as int) - ('a' as int) + 10
    else if 'A' <= c <= 'F' then (c as int) - ('A' as int) + 10
    else 0
  }

  /** A digit of radix 10 or 16, the only radixes `parseInt` picks without an argument. */
  predicate IsRadixDigit(c: char, radix: nat) {
    if radix == 16 then '0' <= c <= '9' || 'a' <= c <= 'f' || 'A' <= c <= 'F'
    else IsDecimalDigit(c)
  }

  /** The longest prefix of `s` made of digits of `radix`. */
  function DigitPrefix(s: string, radix: nat): (r: string)
    ensures |r| <= |s| && r == s[..|r|]
    ensures forall k | 0 <= k < |r| :: IsRadixDigit(r[k], radix)
    ensures |r| < |s| ==> !IsRadixDigit(s[|r|], radix)
  {
    if s != [] && IsRadixDigit(s[0], radix) then [s[0]] + DigitPrefix(s[1..], radix) else []
  }

  /** The value of a numeral, most significant digit first. */
  function NumeralValue(ds: string, radix: nat): nat {
    if ds == [] then 0 else NumeralValue(ds[..|ds| - 1], radix) * radix + DigitValue(ds[|ds| - 1])
  }

  /** Leading whitespace removed, as `parseInt` trims its argument. */
  function TrimStart(s: string): (r: string)
    ensures |r| <= |s| && r == s[|s| - |r|..]
    ensures r == [] || !IsWhitespace(r[0])
    ensures forall k | 0 <= k < |s| - |r| :: IsWhitespace(s[k])
  {
    if s != [] && IsWhitespace(s[0]) then TrimStart(s[1..]) else s
  }

  /** `parseInt(s)` with no radix: None stands for NaN. After the trim, one sign is
      accepted and the magnitude is read; negative zero is taken as zero. */
  function ParseInt(s: string): (r: Option<int>)
    // blank text is NaN, and so is text whose first visible character is no sign or digit
    ensures TrimStart(s) == [] ==> r.None?
    ensures var t := TrimStart(s); |t| > 0 && !IsDecimalDigit(t[0]) && t[0] != '-' && t[0] != '+' ==> r.None?
    // only a leading minus gives a negative number
    ensures r.Some? && r.value < 0 ==> |TrimStart(s)| > 0 && TrimStart(s)[0] == '-'
  {
    var t := TrimStart(s);
    if |t| > 0 && t[0] == '-' then
      match ParseMagnitude(t[1..])
      case None => None
      case Some(m) => Some(0 - m)
    else if |t| > 0 && t[0] == '+' then ParseMagnitude(t[1..])
    else ParseMagnitude(t)
  }

  /** The unsigned part of `parseInt`: a `0x`/`0X` prefix selects radix 16, then
      the longest run of digits is read; no digits gives NaN. */
  function ParseMagnitude(u: string): (m: Option<nat>)
    ensures m.Some? ==> |u| > 0 && IsDecimalDigit(u[0])
  {
    var hex := |u| >= 2 && u[0] == '0' && (u[1] == 'x' || u[1] == 'X');
    var radix := if hex then 16 else 10;
    var z := DigitPrefix(if hex then u[2..] else u, radix);
    if z == [] then None else Some(NumeralValue(z, radix))
  }

  function DigitChar(d: nat): (c: char)
    requires d < 10
    ensures IsDecimalDigit(c) && DigitValue(c) == d
  {
    ('0' as int + d) as char
  }

  /** `n.toString()` for a non-negative integer: its decimal numeral, without
      leading zeros. */
  function NatToDecimal(n: nat): (s: string)
    ensures |s| > 0 && AllDecimalDigits(s)
    ensures NumeralValue(s, 10) == n
    ensures s[0] == '0' ==> n == 0
  {
    if n < 10 then [DigitChar(n)]
    else
      var prefix := NatToDecimal(n / 10);
      var s := prefix + [DigitChar(n % 10)];
      assert s[..|s| - 1] == prefix;
      s
  }

  /** `n.toString()` for an integer. */
  function IntToString(n: int): (s: string)
    ensures |s| > 0 && (s[0] == '-' <==> n < 0)
    ensures var digits := if n < 0 then s[1..] else s;
      AllDecimalDigits(digits) && NumeralValue(digits, 10) == (if n < 0 then -n else n)
  {
    if n < 0 then "-" + NatToDecimal(-n) else NatToDecimal(n)
  }

  /** The digit prefix of a decimal numeral followed by a non-digit is the numeral. */
  lemma {:induction false} DigitPrefixOfNumeral(ds: string, rest: string)
    requires AllDecimalDigits(ds)
    requires rest == [] || !IsDecimalDigit(rest[0])
    ensures DigitPrefix(ds + rest, 10) == ds
  {
    if ds != [] {
      assert (ds + rest)[1..] == ds[1..] + rest;
      DigitPrefixOfNumeral(ds[1..], rest);
    }
  }

  /** The magnitude read from a decimal numeral followed by a non-digit is the
      numeral's value, unless the numeral is a lone `0` followed by `x` or `X`. */
  lemma MagnitudeOfDecimalPrefix(ds: string, rest: string)
    requires ds != [] && AllDecimalDigits(ds)
    requires rest == [] || !IsDecimalDigit(rest[0])
    requires !(ds == "0" && rest != [] && (rest[0] == 'x' || rest[0] == 'X'))
    ensures ParseMagnitude(ds + rest) == Some(NumeralValue(ds, 10))
  {
    var u := ds + rest;
    assert u[0] == ds[0];
    if |u| >= 2 && u[0] == '0' {
      if |ds| >= 2 {
        assert u[1] == ds[1] && IsDecimalDigit(ds[1]);
      } else {
        assert ds == "0" && u[1] == rest[0];
      }
    }
    DigitPrefixOfNumeral(ds, rest);
  }

  /** `parseInt` reads the leading decimal numeral after any whitespace,
      unless the numeral is a lone `0` followed by `x` or `X`: "30.9" is 30. */
  lemma ParseIntReadsDecimalPrefix(ws: string, ds: string, rest: string)
    requires forall k | 0 <= k < |ws| :: IsWhitespace(ws[k])
    requires ds != [] && AllDecimalDigits(ds)
    requires rest == [] || !IsDecimalDigit(rest[0])
    requires !(ds == "0" && rest != [] && (rest[0] == 'x' || rest[0] == 'X'))
    ensures ParseInt(ws + ds + rest) == Some(NumeralValue(ds, 10))
  {
    var u := ds + rest;
    var s := ws + u;
    assert ws + ds + rest == s;
    assert u[0] == ds[0];
    MagnitudeOfDecimalPrefix(ds, rest);
    TrimStartSkips(ws, u);
    ParseIntUnsigned(s, u);
  }

  /** Once trimmed text starts with a digit, `parseInt` is the magnitude read from it. */
  lemma ParseIntUnsigned(s: string, u: string)
    requires TrimStart(s) == u && u != [] && IsDecimalDigit(u[0])
    ensures ParseInt(s) == ParseMagnitude(u)
  {
  }

  /** Once trimmed text starts with `-`, `parseInt` negates the magnitude read after it. */
  lemma ParseIntNegative(s: string, u: string)
    requires TrimStart(s) == "-" + u
    ensures ParseInt(s) == match ParseMagnitude(u) case None => None case Some(m) => Some(0 - m)
  {
    assert ("-" + u)[1..] == u;
  }

  lemma {:induction false} TrimStartSkips(ws: string, s: string)
    requires forall k | 0 <= k < |ws| :: IsWhitespace(ws[k])
    requires s == [] || !IsWhitespace(s[0])
    ensures TrimStart(ws + s) == s
  {
    if ws == [] {
      assert ws + s == s;
    } else {
      assert (ws + s)[1..] == ws[1..] + s;
      TrimStartSkips(ws[1..], s);
    }
  }

  /** What `toString` writes, `parseInt` reads back. */
  lemma IntToStringRoundTrip(n: int)
    ensures ParseInt(IntToString(n)) == Some(n)
  {
    var m: nat := if n < 0 then -n else n;
    var ds := NatToDecimal(m);
    assert ds + [] == ds;
    MagnitudeOfDecimalPrefix(ds, []);
    assert ParseMagnitude(ds) == Some(m);
    if n < 0 {
      var t := "-" + ds;
      assert IntToString(n) == t;
      TrimStartSkips([], t);
      assert [] + t == t;
      ParseIntNegative(t, ds);
    } else {
      assert IntToString(n) == ds;
      TrimStartSkips([], ds);
      assert [] + ds == ds;
      ParseIntUnsigned(ds, ds);
    }
  }

  /** `parseFloat(s)` read as far as the integral part of a numeral: None stands
      for NaN. After the trim, one sign is accepted and the longest run of
      decimal digits is read; there is no hexadecimal prefix. */
  function ParseFloatIntegral(s: string): (r: Option<int>)
    ensures TrimStart(s) == [] ==> r.None?
    ensures var t := TrimStart(s); |t| > 0 && !IsDecimalDigit(t[0]) && t[0] != '-' && t[0] != '+' ==> r.None?
    ensures r.Some? && r.value < 0 ==> |TrimStart(s)| > 0 && TrimStart(s)[0] == '-'
    // a hexadecimal prefix is read as the numeral 0 followed by other text
    ensures var t := TrimStart(s); |t| >= 2 && t[0] == '0' && t[1] == 'x' ==> r == Some(0)
  {
    var t := TrimStart(s);
    var negative := |t| > 0 && t[0] == '-';
    var u := if |t| > 0 && (t[0] == '-' || t[0] == '+') then t[1..] else t;
    var z := DigitPrefix(u, 10);
    assert |t| >= 2 && t[0] == '0' && t[1] == 'x' ==> z == "0" by {
      if |t| >= 2 && t[0] == '0' && t[1] == 'x' {
        assert u == t && u[1..][0] == 'x';
        assert DigitPrefix(u[1..], 10) == [];
      }
    }
    assert NumeralValue("0", 10) == 0 by {
      assert "0"[..0] == [];
    }
    if z == [] then None
    else if negative then Some(0 - NumeralValue(z, 10))
    else Some(NumeralValue(z, 10))
  }

  /** What `toString` writes for a non-negative integer, `parseFloat` reads back. */
  lemma NatToDecimalFloatRoundTrip(n: nat)
    ensures ParseFloatIntegral(NatToDecimal(n)) == Some(n)
  {
    var ds := NatToDecimal(n);
    assert TrimStart(ds) == ds by {
      DigitIsNotWhitespace(ds[0]);
    }
    assert ds + [] == ds;
    DigitPrefixOfNumeral(ds, []);
  }

  lemma DigitIsNotWhitespace(c: char)
    requires IsDecimalDigit(c)
    ensures !IsWhitespace(c)
  {
  }
}
