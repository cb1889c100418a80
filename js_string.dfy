/**
 * The JavaScript string and number primitives that the entitlement code
 * leans on: `String.prototype.trim`, `toLowerCase` (ASCII letters),
 * `parseInt(s, 10)` and `String(n)`, over Dafny strings of Unicode scalar
 * values.
 */
module JsString {

  /** A JavaScript number as the usage counter can see it: NaN or an integer. */
  datatype Num = NaN | Int(i: int)

  /** `n + 1` on a JavaScript number: NaN stays NaN. */
  function Succ(n: Num): (r: Num)
    ensures r.NaN? <==> n.NaN?
    ensures n.Int? ==> r.i == n.i + 1
  {
    match n
    case NaN => NaN
    case Int(i) => Int(i + 1)
  }

  /**
   * The ECMAScript WhiteSpace and LineTerminator code points: what `trim`
   * removes and what `parseInt` skips before the number.
   */
  predicate IsSpace(c: char) {
    c == '\t' || c == '\n' || c == '\U{B}' || c == '\U{C}' || c == '\r' || c == ' '
    || c == '\U{A0}' || c == '\U{1680}' || ('\U{2000}' <= c <= '\U{200A}')
    || c == '\U{2028}' || c == '\U{2029}' || c == '\U{202F}' || c == '\U{205F}'
    || c == '\U{3000}' || c == '\U{FEFF}'
  }

  /** `s.trimStart()`: drops the leading white space and nothing else. */
  function TrimStart(s: string): (r: string)
    ensures |r| <= |s| && r == s[|s| - |r|..]
    ensures r == [] || !IsSpace(r[0])
    ensures forall i :: 0 <= i < |s| - |r| ==> IsSpace(s[i])
  {
    if |s| > 0 && IsSpace(s[0]) then TrimStart(s[1..]) else s
  }

  /** `s.trimEnd()`: drops the trailing white space and nothing else. */
  function TrimEnd(s: string): (r: string)
    ensures |r| <= |s| && r == s[..|r|]
    ensures r == [] || !IsSpace(r[|r| - 1])
    ensures forall i :: |r| <= i < |s| ==> IsSpace(s[i])
  {
    if |s| > 0 && IsSpace(s[|s| - 1]) then TrimEnd(s[..|s| - 1]) else s
  }

  /** `s.trim()`: the result neither starts nor ends with white space. */
  function Trim(s: string): (r: string)
    ensures |r| <= |s|
    ensures r == [] || (!IsSpace(r[0]) && !IsSpace(r[|r| - 1]))
  {
    TrimEnd(TrimStart(s))
  }

  /** Trimming twice is trimming once. */
  lemma TrimIdempotent(s: string)
    ensures Trim(Trim(s)) == Trim(s)
  {
    var r := Trim(s);
    assert TrimStart(r) == r;
    assert TrimEnd(r) == r;
  }

  /** Leading white space does not reach the trimmed result. */
  lemma {:induction false} TrimStartSpace(w: string, x: string)
    requires forall i :: 0 <= i < |w| ==> IsSpace(w[i])
    ensures TrimStart(w + x) == TrimStart(x)
  {
    if w == [] {
      assert w + x == x;
    } else {
      assert (w + x)[0] == w[0] && (w + x)[1..] == w[1..] + x;
      TrimStartSpace(w[1..], x);
    }
  }

  /** Trailing white space does not reach the trimmed result. */
  lemma {:induction false} TrimEndSpace(x: string, w: string)
    requires forall i :: 0 <= i < |w| ==> IsSpace(w[i])
    ensures TrimEnd(x + w) == TrimEnd(x)
  {
    if w == [] {
      assert x + w == x;
    } else {
      var w' := w[..|w| - 1];
      assert (x + w)[|x + w| - 1] == w[|w| - 1];
      assert (x + w)[..|x + w| - 1] == x + w';
      TrimEndSpace(x, w');
    }
  }

  /** Trailing white space is trimmed away whatever the start looks like. */
  lemma {:induction false} TrimSpaceAfter(x: string, w: string)
    requires forall i :: 0 <= i < |w| ==> IsSpace(w[i])
    ensures Trim(x + w) == Trim(x)
  {
    if x == [] {
      assert x + w == w;
      TrimStartSpace(w, []);
      assert w + [] == w;
    } else if IsSpace(x[0]) {
      assert (x + w)[0] == x[0] && (x + w)[1..] == x[1..] + w;
      TrimSpaceAfter(x[1..], w);
    } else {
      TrimEndSpace(x, w);
    }
  }

  /** `toLowerCase` on one character, for the ASCII letters. */
  function LowerChar(c: char): (d: char)
    ensures 'A' <= c <= 'Z' ==> 'a' <= d <= 'z' && d as int == c as int + 32
    ensures !('A' <= c <= 'Z') ==> d == c
  {
    if 'A' <= c <= 'Z' then (c as int + 32) as char else c
  }

  /** `s.toLowerCase()`, character by character. */
  function Lower(s: string): (r: string)
    ensures |r| == |s| && forall i :: 0 <= i < |s| ==> r[i] == LowerChar(s[i])
  {
    seq(|s|, i requires 0 <= i < |s| => LowerChar(s[i]))
  }

  /** Lowercasing neither creates nor removes white space. */
  lemma SpaceLower(c: char)
    ensures IsSpace(LowerChar(c)) == IsSpace(c)
  {
  }

  /** Hence it commutes with trimming at either end. */
  lemma {:induction false} TrimStartLower(s: string)
    ensures TrimStart(Lower(s)) == Lower(TrimStart(s))
  {
    if |s| > 0 {
      var l := Lower(s);
      SpaceLower(s[0]);
      if IsSpace(s[0]) {
        assert l[1..] == Lower(s[1..]);
        TrimStartLower(s[1..]);
      }
    }
  }

  lemma {:induction false} TrimEndLower(s: string)
    ensures TrimEnd(Lower(s)) == Lower(TrimEnd(s))
  {
    if |s| > 0 {
      var l := Lower(s);
      SpaceLower(s[|s| - 1]);
      if IsSpace(s[|s| - 1]) {
        assert l[..|s| - 1] == Lower(s[..|s| - 1]);
        TrimEndLower(s[..|s| - 1]);
      }
    }
  }

  /** Lowercasing twice is lowercasing once. */
  lemma LowerIdempotent(s: string)
    ensures Lower(Lower(s)) == Lower(s)
  {
  }

  predicate IsDigit(c: char) {
    '0' <= c <= '9'
  }

  /** The longest prefix of `s` made of decimal digits. */
  function DigitPrefix(s: string): (r: string)
    ensures |r| <= |s| && r == s[..|r|]
    ensures forall i :: 0 <= i < |r| ==> IsDigit(r[i])
    ensures |r| == |s| || !IsDigit(s[|r|])
  {
    if |s| > 0 && IsDigit(s[0]) then [s[0]] + DigitPrefix(s[1..]) else []
  }

  /** The value of a string of decimal digits, most significant first. */
  function DigitsValue(z: string): nat
    requires forall i :: 0 <= i < |z| ==> IsDigit(z[i])
  {
    if z == [] then 0
    else
      assert IsDigit(z[|z| - 1]);
      DigitsValue(z[..|z| - 1]) * 10 + (z[|z| - 1] as int - '0' as int)
  }

  /**
   * `parseInt(s, 10)`: skip leading white space, then read the rest as
   * `ParseTrimmed` does. `ParseIntDigits` gives the value.
   */
  function ParseInt(s: string): (n: Num)
    ensures s == [] ==> n.NaN?
    ensures s != [] && IsDigit(s[0]) ==> n.Int?
  {
    ParseTrimmed(TrimStart(s))
  }

  /**
   * `parseInt` gives NaN exactly when, after the white space and the sign,
   * nothing is left or the next character is not a digit.
   */
  lemma ParseIntNaN(s: string)
    ensures ParseInt(s).NaN? <==> (var t := SignStripped(TrimStart(s)); t == [] || !IsDigit(t[0]))
  {
    var t := TrimStart(s);
    assert ParseInt(s) == ParseTrimmed(t);
  }

  /**
   * What `parseInt` reads after the white space: an optional sign, then the
   * longest run of digits; no digits gives NaN.
   */
  function ParseTrimmed(t: string): (n: Num)
    ensures n.NaN? <==> (var z := SignStripped(t); z == [] || !IsDigit(z[0]))
  {
    var negative := |t| > 0 && t[0] == '-';
    var z := DigitPrefix(SignStripped(t));
    if z == [] then NaN else Int(if negative then -(DigitsValue(z) as int) else DigitsValue(z))
  }

  /** The digit prefix of digits followed by a non-digit is those digits. */
  lemma {:induction false} DigitPrefixStops(ds: string, rest: string)
    requires forall i :: 0 <= i < |ds| ==> IsDigit(ds[i])
    requires rest == [] || !IsDigit(rest[0])
    ensures DigitPrefix(ds + rest) == ds
  {
    if ds == [] {
      assert ds + rest == rest;
    } else {
      assert (ds + rest)[0] == ds[0] && (ds + rest)[1..] == ds[1..] + rest;
      DigitPrefixStops(ds[1..], rest);
    }
  }

  /** Leading white space does not change what `parseInt` reads. */
  lemma ParseIntSkipsSpace(w: string, u: string)
    requires forall i :: 0 <= i < |w| ==> IsSpace(w[i])
    ensures ParseInt(w + u) == ParseInt(u)
  {
    TrimStartSpace(w, u);
    assert ParseInt(w + u) == ParseTrimmed(TrimStart(w + u));
  }

  /**
   * `parseInt` of white space, an optional sign, digits and then anything
   * not starting with a digit is the signed value of those digits: what
   * follows the digits is ignored.
   */
  lemma ParseIntDigits(w: string, sign: string, ds: string, rest: string)
    requires forall i :: 0 <= i < |w| ==> IsSpace(w[i])
    requires |sign| <= 1 && (sign != [] ==> sign[0] == '+' || sign[0] == '-')
    requires ds != [] && forall i :: 0 <= i < |ds| ==> IsDigit(ds[i])
    requires rest == [] || !IsDigit(rest[0])
    ensures ParseInt(w + sign + ds + rest) == Int(if sign != [] && sign[0] == '-' then -(DigitsValue(ds) as int) else DigitsValue(ds))
  {
    Associative(w, sign, ds, rest);
    ParseIntSkipsSpace(w, sign + (ds + rest));
    ParseIntSigned(sign, ds, rest);
  }

  /** `ParseIntDigits` without the leading white space. */
  lemma ParseIntSigned(sign: string, ds: string, rest: string)
    requires |sign| <= 1 && (sign != [] ==> sign[0] == '+' || sign[0] == '-')
    requires ds != [] && forall i :: 0 <= i < |ds| ==> IsDigit(ds[i])
    requires rest == [] || !IsDigit(rest[0])
    ensures ParseInt(sign + (ds + rest)) == Int(if sign != [] && sign[0] == '-' then -(DigitsValue(ds) as int) else DigitsValue(ds))
  {
    var v := ds + rest;
    var u := sign + v;
    DigitPrefixStops(ds, rest);
    assert v[0] == ds[0];
    SignedDigits(sign, v);
    if sign == [] {
      assert u[0] == v[0];
    } else {
      assert u[0] == sign[0];
    }
    ParseIntReads(u, ds, sign != [] && sign[0] == '-');
  }

  /** Regrouping a concatenation of four strings. */
  lemma Associative(a: string, b: string, c: string, d: string)
    ensures a + b + c + d == a + (b + (c + d))
  {
  }

  /** `parseInt` of a string that is already trimmed and whose digits are known. */
  lemma ParseIntReads(u: string, ds: string, negative: bool)
    requires TrimStart(u) == u
    requires ds != [] && forall i :: 0 <= i < |ds| ==> IsDigit(ds[i])
    requires DigitPrefix(SignStripped(u)) == ds
    requires negative <==> |u| > 0 && u[0] == '-'
    ensures ParseInt(u) == Int(if negative then -(DigitsValue(ds) as int) else DigitsValue(ds))
  {
  }

  /** After a sign or nothing, `parseInt` reads the digits that follow. */
  lemma SignedDigits(sign: string, v: string)
    requires |sign| <= 1 && (sign != [] ==> sign[0] == '+' || sign[0] == '-')
    requires v != [] && IsDigit(v[0])
    ensures TrimStart(sign + v) == sign + v
    ensures SignStripped(sign + v) == v
  {
    var u := sign + v;
    if sign == [] {
      assert u == v;
    } else {
      assert u[0] == sign[0] && u[1..] == v;
    }
    assert !IsSpace(u[0]);
    TrimStartNoSpace(u);
  }

  /** A string that does not start with white space is its own `trimStart`. */
  lemma TrimStartNoSpace(s: string)
    requires s != [] && !IsSpace(s[0])
    ensures TrimStart(s) == s
  {
  }

  /** `t` without its leading `+` or `-`, if it has one. */
  function SignStripped(t: string): string {
    if |t| > 0 && (t[0] == '-' || t[0] == '+') then t[1..] else t
  }

  function DigitChar(d: nat): (c: char)
    requires d < 10
    ensures IsDigit(c) && c as int - '0' as int == d
  {
    ('0' as int + d) as char
  }

  /** `String(n)` for a non-negative integer: its decimal digits, no leading zero. */
  function NatToString(n: nat): (s: string)
    ensures |s| > 0 && forall i :: 0 <= i < |s| ==> IsDigit(s[i])
    ensures |s| > 1 ==> s[0] != '0'
  {
    if n < 10 then [DigitChar(n)] else NatToString(n / 10) + [DigitChar(n % 10)]
  }

  /** `String(i)` for an integer. */
  function IntToString(i: int): (s: string)
    ensures |s| > 0 && (s[0] == '-' || IsDigit(s[0]))
  {
    if i < 0 then "-" + NatToString(-i) else NatToString(i)
  }

  /** `String(n)` for a counter value: NaN is written as text that does not start like a number. */
  function NumToString(n: Num): (s: string)
    ensures s != []
    ensures n.NaN? <==> !(s[0] == '-' || IsDigit(s[0]))
  {
    match n
    case NaN => "NaN"
    case Int(i) => IntToString(i)
  }

  /** Reading back the digits that `NatToString` wrote gives the number. */
  lemma {:induction false} DigitsRoundTrip(n: nat)
    ensures DigitsValue(NatToString(n)) == n
  {
    var s := NatToString(n);
    if n >= 10 {
      assert s[..|s| - 1] == NatToString(n / 10);
      DigitsRoundTrip(n / 10);
    }
  }

  /** The digit prefix of a string of digits is the whole string. */
  lemma {:induction false} DigitPrefixOfDigits(z: string)
    requires forall i :: 0 <= i < |z| ==> IsDigit(z[i])
    ensures DigitPrefix(z) == z
  {
    if |z| > 0 {
      DigitPrefixOfDigits(z[1..]);
    }
  }

  /** `parseInt(String(i), 10) == i` for an integer. */
  lemma IntRoundTrip(i: int)
    ensures ParseInt(IntToString(i)) == Int(i)
  {
    var s := IntToString(i);
    var m := if i < 0 then -i else i;
    var ds := NatToString(m);
    assert TrimStart(s) == s;
    assert SignStripped(s) == ds;
    DigitPrefixOfDigits(ds);
    DigitsRoundTrip(m);
  }

  /** `parseInt(String(n), 10) == n`: what `incrementUsage` stores, `getUsageCount` reads back. */
  lemma ParseIntRoundTrip(n: Num)
    ensures NumToString(n) != ""
    ensures ParseInt(NumToString(n)) == n
  {
    match n
    case NaN =>
      assert TrimStart("NaN") == "NaN";
      assert DigitPrefix("NaN") == [];
    case Int(i) =>
      IntRoundTrip(i);
  }

  /** `parseInt('0', 10)`, the reading of an absent counter. */
  lemma ParseZero()
    ensures ParseInt("0") == Int(0)
  {
    assert NumToString(Int(0)) == "0";
    ParseIntRoundTrip(Int(0));
  }

  /** Decimal notation is unambiguous: different numbers have different strings. */
  lemma NatToStringInjective(m: nat, n: nat)
    requires NatToString(m) == NatToString(n)
    ensures m == n
  {
    DigitsRoundTrip(m);
    DigitsRoundTrip(n);
  }
}
