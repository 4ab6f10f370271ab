/**
 * The global `parseInt` called with one argument, and the `parseInt(v) || d`
 * coercion the editor applies to every numeric input. `None` stands for NaN.
 * Integers are unbounded: the loss of precision of very long digit strings in
 * a double is not modelled.
 */
module JsNumber {
  import opened Wrappers

  /** JavaScript WhiteSpace and LineTerminator code points, which `parseInt` skips first. */
  predicate IsSpace(c: char)
  {
    || c == '\t' || c == '\n' || c == '\U{000B}' || c == '\U{000C}' || c == '\r' || c == ' '
    || c == '\U{00A0}' || c == '\U{1680}' || ('\U{2000}' <= c <= '\U{200A}')
    || c == '\U{2028}' || c == '\U{2029}' || c == '\U{202F}' || c == '\U{205F}'
    || c == '\U{3000}' || c == '\U{FEFF}'
  }

  /** The string with its leading white space removed. */
  function TrimStart(s: string): (r: string)
    ensures |r| <= |s| && r == s[|s| - |r|..]
    ensures forall i :: 0 <= i < |s| - |r| ==> IsSpace(s[i])
    ensures |r| == 0 || !IsSpace(r[0])
  {
    if |s| > 0 && IsSpace(s[0]) then TrimStart(s[1..]) else s
  }

  /** The value of a digit in radix up to 36, or 36 for a character that is no digit. */
  function DigitValue(c: char): (d: nat)
    ensures d <= 36
  {
    if '0' <= c <= '9' then c as nat - '0' as nat
    else if 'a' <= c <= 'z' then c as nat - 'a' as nat + 10
    else if 'A' <= c <= 'Z' then c as nat - 'A' as nat + 10
    else 36
  }

  predicate IsDigit(c: char, radix: nat)
  {
    DigitValue(c) < radix
  }

  /** The longest prefix of `s` made of digits of the radix. */
  function DigitPrefix(s: string, radix: nat): (z: string)
    ensures |z| <= |s| && z == s[..|z|]
    ensures forall i :: 0 <= i < |z| ==> IsDigit(z[i], radix)
    ensures |z| == |s| || !IsDigit(s[|z|], radix)
  {
    if |s| > 0 && IsDigit(s[0], radix) then [s[0]] + DigitPrefix(s[1..], radix) else []
  }

  /** The number a digit string denotes, most significant digit first. */
  function Value(z: string, radix: nat): (v: nat)
  {
    if |z| == 0 then 0
    else Value(z[..|z| - 1], radix) * radix + (if IsDigit(z[|z| - 1], radix) then DigitValue(z[|z| - 1]) else 0)
  }

  /** The digits after the sign: a `0x`/`0X` prefix switches to radix 16, and no digit at all is NaN. */
  function ParseUnsigned(u: string): Option<nat>
  {
    var hex := |u| >= 2 && u[0] == '0' && (u[1] == 'x' || u[1] == 'X');
    var radix := if hex then 16 else 10;
    var z := DigitPrefix(if hex then u[2..] else u, radix);
    if |z| == 0 then None else Some(Value(z, radix))
  }

  /** The text `parseInt` reads digits from: what follows the leading white space and an optional sign. */
  function AfterSign(s: string): (u: string)
    ensures |u| <= |s|
  {
    var t := TrimStart(s);
    if |t| > 0 && (t[0] == '-' || t[0] == '+') then t[1..] else t
  }

  /** The first character after the leading white space is a minus sign. */
  predicate Negated(s: string)
  {
    var t := TrimStart(s);
    |t| > 0 && t[0] == '-'
  }

  predicate HexPrefix(u: string)
  {
    |u| >= 2 && u[0] == '0' && (u[1] == 'x' || u[1] == 'X')
  }

  /**
   * `parseInt(s)`: skip leading white space, take an optional sign, then the
   * longest run of digits is the value. A number needs a decimal digit right
   * after the sign (a `0x` prefix then needs a hexadecimal digit), and is
   * negative only after a minus sign.
   */
  function ParseInt(s: string): (r: Option<int>)
    ensures r.Some? ==> |AfterSign(s)| > 0 && IsDigit(AfterSign(s)[0], 10)
    ensures |AfterSign(s)| > 0 && IsDigit(AfterSign(s)[0], 10) && !HexPrefix(AfterSign(s)) ==> r.Some?
    ensures r.Some? && r.value < 0 ==> Negated(s)
    ensures r.Some? && !Negated(s) ==> r.value >= 0
  {
    var t := TrimStart(s);
    if |t| > 0 && (t[0] == '-' || t[0] == '+') then
      match ParseUnsigned(t[1..])
      case None => None
      case Some(v) => var w: int := v; Some(if t[0] == '-' then -w else w)
    else
      match ParseUnsigned(t)
      case None => None
      case Some(v) => Some(v)
  }

  /** After a `0x` or `0X` prefix, `parseInt` finds a number exactly when a hexadecimal digit follows. */
  lemma ParseIntHex(s: string)
    requires HexPrefix(AfterSign(s))
    ensures ParseInt(s).Some? <==> |AfterSign(s)| > 2 && IsDigit(AfterSign(s)[2], 16)
  {
  }

  /** The decimal digit for `d < 10`. */
  function Digit(d: nat): (c: char)
    requires d < 10
    ensures DigitValue(c) == d
  {
    ('0' as nat + d) as char
  }

  /** The shortest decimal numeral of a natural number. */
  function NatDecimal(n: nat): (z: string)
    ensures |z| > 0
    ensures forall i :: 0 <= i < |z| ==> IsDigit(z[i], 10)
  {
    if n < 10 then [Digit(n)] else NatDecimal(n / 10) + [Digit(n % 10)]
  }

  /** The decimal numeral of an integer, as `String(n)` writes it. */
  function Decimal(n: int): (d: string)
  {
    if n < 0 then "-" + NatDecimal(-n) else NatDecimal(n)
  }

  /** `parseInt(v) || d`: the parsed integer when it is a number other than zero, else `d`. */
  function ParseIntOr(v: string, d: int): (r: int)
    ensures ParseInt(v).Some? && ParseInt(v).value != 0 ==> r == ParseInt(v).value
    ensures ParseInt(v) == None || ParseInt(v) == Some(0) ==> r == d
    ensures r == 0 ==> d == 0
  {
    var p := ParseInt(v);
    if p.Some? && p.value != 0 then p.value else d
  }

  /** A numeral reads back as the number it denotes. */
  lemma {:induction false} ValueNatDecimal(n: nat)
    ensures Value(NatDecimal(n), 10) == n
  {
    if n >= 10 {
      var z := NatDecimal(n);
      assert z[..|z| - 1] == NatDecimal(n / 10);
      ValueNatDecimal(n / 10);
    }
  }

  /** The digit run of a numeral followed by a non-digit is the numeral. */
  lemma {:induction false} DigitPrefixAll(z: string, rest: string, radix: nat)
    requires forall i :: 0 <= i < |z| ==> IsDigit(z[i], radix)
    requires |rest| == 0 || !IsDigit(rest[0], radix)
    ensures DigitPrefix(z + rest, radix) == z
  {
    if |z| > 0 {
      assert (z + rest)[1..] == z[1..] + rest;
      DigitPrefixAll(z[1..], rest, radix);
      assert [z[0]] + z[1..] == z;
    }
  }

  /** The digits of a natural number followed by a non-digit read back as that number. */
  lemma ParseUnsignedNatDecimal(m: nat, rest: string)
    requires |rest| == 0 || !IsDigit(rest[0], 10)
    requires m == 0 ==> |rest| == 0 || (rest[0] != 'x' && rest[0] != 'X')
    ensures ParseUnsigned(NatDecimal(m) + rest) == Some(m)
  {
    var z := NatDecimal(m);
    var u := z + rest;
    if m >= 10 {
      LeadingDigitNonZero(m);
      assert u[0] == z[0];
    } else {
      assert z == [Digit(m)];
    }
    DigitPrefixAll(z, rest, 10);
    ValueNatDecimal(m);
  }

  /** Text that starts with a sign or a decimal digit has no white space to skip. */
  lemma TrimStartSignOrDigit(s: string)
    requires |s| > 0 && (s[0] == '-' || '0' <= s[0] <= '9')
    ensures TrimStart(s) == s
  {
    assert !IsSpace(s[0]);
  }

  /** A minus sign in front of digits `parseInt` reads negates their value. */
  lemma ParseIntNegative(u: string, m: nat)
    requires ParseUnsigned(u) == Some(m)
    ensures ParseInt("-" + u) == Some(-(m as int))
  {
    var s := "-" + u;
    TrimStartSignOrDigit(s);
    assert s[1..] == u;
  }

  /** Text that starts with a digit is read without a sign. */
  lemma ParseIntUnsigned(u: string, m: nat)
    requires |u| > 0 && IsDigit(u[0], 10) && ParseUnsigned(u) == Some(m)
    ensures ParseInt(u) == Some(m)
  {
    assert '0' <= u[0] <= '9';
    TrimStartSignOrDigit(u);
    var t := TrimStart(u);
    assert !(|t| > 0 && (t[0] == '-' || t[0] == '+'));
  }

  /** `k` zero digits. */
  function Zeros(k: nat): (z: string)
    ensures |z| == k && forall i :: 0 <= i < k ==> z[i] == '0'
  {
    if k == 0 then "" else "0" + Zeros(k - 1)
  }

  /** A leading zero digit does not change the value. */
  lemma {:induction false} ValueLeadingZero(z: string, radix: nat)
    ensures Value("0" + z, radix) == Value(z, radix)
    decreases |z|
  {
    var y := "0" + z;
    if |z| == 0 {
      assert y[..0] == "";
    } else {
      assert y[..|y| - 1] == "0" + z[..|z| - 1];
      assert y[|y| - 1] == z[|z| - 1];
      ValueLeadingZero(z[..|z| - 1], radix);
    }
  }

  /** Leading zero digits do not change the value. */
  lemma {:induction false} ValueZeros(k: nat, z: string, radix: nat)
    ensures Value(Zeros(k) + z, radix) == Value(z, radix)
  {
    if k > 0 {
      assert Zeros(k) + z == "0" + (Zeros(k - 1) + z);
      ValueLeadingZero(Zeros(k - 1) + z, radix);
      ValueZeros(k - 1, z, radix);
    } else {
      assert Zeros(k) + z == z;
    }
  }

  /** Leading white space is skipped up to the first other character. */
  lemma {:induction false} TrimStartSpaces(w: string, t: string)
    requires forall i :: 0 <= i < |w| ==> IsSpace(w[i])
    requires |t| == 0 || !IsSpace(t[0])
    ensures TrimStart(w + t) == t
  {
    if |w| == 0 {
      assert w + t == t;
    } else {
      assert (w + t)[1..] == w[1..] + t;
      TrimStartSpaces(w[1..], t);
    }
  }

  /** A run of decimal digits, not read as a `0x` prefix, followed by a non-digit reads back as its value. */
  lemma ParseUnsignedDigits(z: string, rest: string)
    requires |z| > 0 && forall i :: 0 <= i < |z| ==> IsDigit(z[i], 10)
    requires |rest| == 0 || !IsDigit(rest[0], 10)
    requires !HexPrefix(z + rest)
    ensures ParseUnsigned(z + rest) == Some(Value(z, 10))
  {
    DigitPrefixAll(z, rest, 10);
  }

  /** Zeros in front of a numeral followed by a non-digit: the digits read back as the numeral's number. */
  lemma ParseUnsignedZeros(k: nat, m: nat, rest: string)
    requires |rest| == 0 || !IsDigit(rest[0], 10)
    requires k == 0 && m == 0 ==> |rest| == 0 || (rest[0] != 'x' && rest[0] != 'X')
    ensures ParseUnsigned(Zeros(k) + NatDecimal(m) + rest) == Some(m)
  {
    var n := NatDecimal(m);
    if k == 0 {
      assert Zeros(k) + n == n;
      ParseUnsignedNatDecimal(m, rest);
    } else {
      var z := Zeros(k) + n;
      assert forall i :: 0 <= i < |z| ==> IsDigit(z[i], 10) by {
        forall i | 0 <= i < |z|
          ensures IsDigit(z[i], 10)
        {
          if i < k {
            assert z[i] == '0';
          } else {
            assert z[i] == n[i - k];
          }
        }
      }
      assert !HexPrefix(z + rest) by {
        assert (z + rest)[1] == z[1];
      }
      ParseUnsignedDigits(z, rest);
      ValueZeros(k, n, 10);
      ValueNatDecimal(m);
    }
  }

  /** Regrouping the parts of a numeral with its surroundings. */
  lemma Regroup(w: string, sign: string, zs: string, n: string, rest: string)
    ensures w + sign + zs + n + rest == w + (sign + ((zs + n) + rest))
  {
  }

  /** Text whose white space is followed by a sign or none and then digits `parseInt` reads as `m`. */
  lemma ParseIntSigned(s: string, sign: string, u: string, m: nat)
    requires sign == "" || sign == "+" || sign == "-"
    requires TrimStart(s) == sign + u
    requires |u| > 0 && '0' <= u[0] <= '9' && ParseUnsigned(u) == Some(m)
    ensures ParseInt(s) == Some(if sign == "-" then -(m as int) else m)
  {
    var t := sign + u;
    if sign == "" {
      assert t == u && !(t[0] == '-' || t[0] == '+');
    } else {
      assert t[0] == sign[0] && t[1..] == u;
    }
  }

  /**
   * `parseInt` reads a decimal numeral back as the number it denotes, with
   * any leading white space, an optional sign and any leading zeros, whatever
   * non-digit text follows it — except an `x` right after a lone `0`, which
   * `parseInt` takes as a hexadecimal prefix.
   */
  lemma ParseIntNumeral(w: string, sign: string, k: nat, m: nat, rest: string)
    requires forall i :: 0 <= i < |w| ==> IsSpace(w[i])
    requires sign == "" || sign == "+" || sign == "-"
    requires |rest| == 0 || !IsDigit(rest[0], 10)
    requires k == 0 && m == 0 ==> |rest| == 0 || (rest[0] != 'x' && rest[0] != 'X')
    ensures ParseInt(w + sign + Zeros(k) + NatDecimal(m) + rest) == Some(if sign == "-" then -(m as int) else m)
  {
    var zs := Zeros(k);
    var n := NatDecimal(m);
    var u := (zs + n) + rest;
    var t := sign + u;
    assert '0' <= u[0] <= '9' by {
      assert u[0] == (zs + n)[0];
      if k == 0 {
        assert (zs + n)[0] == n[0];
      } else {
        assert (zs + n)[0] == zs[0];
      }
    }
    assert !IsSpace(t[0]) by {
      assert t[0] == '-' || t[0] == '+' || t[0] == u[0];
    }
    Regroup(w, sign, zs, n, rest);
    TrimStartSpaces(w, t);
    ParseUnsignedZeros(k, m, rest);
    ParseIntSigned(w + t, sign, u, m);
  }

  /**
   * `parseInt` reads the decimal numeral `String(n)` of any integer back,
   * whatever non-digit text follows it, except `x` after a lone `0`.
   */
  lemma ParseIntDecimal(n: int, rest: string)
    requires |rest| == 0 || !IsDigit(rest[0], 10)
    requires n == 0 ==> |rest| == 0 || (rest[0] != 'x' && rest[0] != 'X')
    ensures ParseInt(Decimal(n) + rest) == Some(n)
  {
    var m := if n < 0 then -n else n;
    var u := NatDecimal(m) + rest;
    ParseUnsignedNatDecimal(m, rest);
    if n < 0 {
      assert Decimal(n) + rest == "-" + u;
      ParseIntNegative(u, m);
    } else {
      assert Decimal(n) + rest == u && u[0] == NatDecimal(m)[0];
      ParseIntUnsigned(u, m);
    }
  }

  /** The numeral of a number of two or more digits does not start with 0. */
  lemma {:induction false} LeadingDigitNonZero(n: nat)
    requires n >= 10
    ensures NatDecimal(n)[0] != '0'
  {
    if n / 10 >= 10 {
      LeadingDigitNonZero(n / 10);
    }
  }

  /** Text whose first non-space character is neither a digit nor a sign has no integer in it. */
  lemma ParseIntNaN(s: string)
    requires var t := TrimStart(s); |t| == 0 || (!IsDigit(t[0], 10) && t[0] != '-' && t[0] != '+')
    ensures ParseInt(s) == None
  {
  }

  /** The amount input truncates a fraction: "3.9" stores 3. */
  lemma AmountTruncates()
    ensures ParseIntOr("3.9", 1) == 3
  {
    assert Digit(3) == '3';
    Example("3.9", 3, ".9");
  }

  /** The amount input is not clamped: "-5" stores -5. */
  lemma AmountKeepsNegative()
    ensures ParseIntOr("-5", 1) == -5
  {
    assert Digit(5) == '5';
    Example("-5", -5, "");
  }

  /** The amount input stores 1 for a zero. */
  lemma AmountZeroIsOne()
    ensures ParseIntOr("0", 1) == 1
  {
    assert Digit(0) == '0';
    Example("0", 0, "");
  }

  /** The amount input stores 1 for text without digits and for an empty field. */
  lemma AmountNaNIsOne()
    ensures ParseIntOr("abc", 1) == 1
    ensures ParseIntOr("", 1) == 1
  {
    assert TrimStart("abc") == "abc";
    ParseIntNaN("abc");
    ParseIntNaN("");
  }

  lemma Example(s: string, n: int, rest: string)
    requires s == Decimal(n) + rest
    requires |rest| == 0 || !IsDigit(rest[0], 10)
    requires n == 0 ==> |rest| == 0 || (rest[0] != 'x' && rest[0] != 'X')
    ensures ParseInt(s) == Some(n)
  {
    ParseIntDecimal(n, rest);
  }
}
