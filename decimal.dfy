/** Decimal renderings of integers: Python's `str(int)`, `int(digits)`,
    `f"{n:04d}"` and `str.zfill`, over ASCII digit strings. */
module Decimal {

  function Pow10(k: nat): (r: nat)
    ensures r >= 1
  {
    if k == 0 then 1 else 10 * Pow10(k - 1)
  }

  predicate IsDigit(c: char) {
    '0' <= c <= '9'
  }

  predicate AllDigits(s: string) {
    forall i :: 0 <= i < |s| ==> IsDigit(s[i])
  }

  function DigitChar(d: nat): (c: char)
    requires d < 10
    ensures IsDigit(c)
  {
    ('0' as int + d) as char
  }

  function DigitValue(c: char): (d: nat)
    requires IsDigit(c)
    ensures d < 10 && DigitChar(d) == c
  {
    c as int - '0' as int
  }

  /** The canonical decimal form of `n` (Python `str(n)` for n >= 0). */
  function FromNat(n: nat): (s: string)
    ensures |s| >= 1 && AllDigits(s)
    ensures s[0] != '0' || n == 0
    ensures n == 0 ==> s == "0"
  {
    if n < 10 then [DigitChar(n)] else FromNat(n / 10) + [DigitChar(n % 10)]
  }

  /** Python `str(i)` for any integer. */
  function FromInt(i: int): (s: string)
    ensures |s| >= 1
    ensures i >= 0 ==> s == FromNat(i)
    ensures i < 0 ==> s[0] == '-' && s[1..] == FromNat(-i)
  {
    if i < 0 then "-" + FromNat(-i) else FromNat(i)
  }

  /** The value of a string of decimal digits (most significant first). */
  function Parse(s: string): (n: nat)
    requires AllDigits(s)
    ensures n < Pow10(|s|)
  {
    if s == [] then 0 else 10 * Parse(s[..|s| - 1]) + DigitValue(s[|s| - 1])
  }

  function Zeros(k: nat): (s: string)
    ensures |s| == k && AllDigits(s)
    ensures forall i :: 0 <= i < k ==> s[i] == '0'
  {
    seq(k, _ => '0')
  }

  /** Python `str.zfill(width)`: left-pads with zeros after an optional sign,
      never truncates. */
  function ZFill(s: string, width: nat): (r: string)
    ensures |r| == if |s| >= width then |s| else width
    ensures |s| >= width ==> r == s
  {
    if |s| >= width then s
    else if |s| > 0 && (s[0] == '-' || s[0] == '+') then [s[0]] + Zeros(width - |s|) + s[1..]
    else Zeros(width - |s|) + s
  }

  /** `f"{n:0{width}d}"` for n >= 0 renders the same as `str(n).zfill(width)`. */
  function Padded(n: nat, width: nat): (r: string)
    ensures AllDigits(r) && |r| >= width && |r| >= 1
    ensures r == ZFill(FromNat(n), width)
  {
    var s := FromNat(n);
    if |s| >= width then s else Zeros(width - |s|) + s
  }

  lemma {:induction false} ParseAppend(s: string, t: string)
    requires AllDigits(s) && AllDigits(t)
    ensures AllDigits(s + t)
    ensures Parse(s + t) == Parse(s) * Pow10(|t|) + Parse(t)
    decreases |t|
  {
    assert AllDigits(s + t) by {
      forall i | 0 <= i < |s + t| ensures IsDigit((s + t)[i]) {
        if i < |s| { assert (s + t)[i] == s[i]; } else { assert (s + t)[i] == t[i - |s|]; }
      }
    }
    if t == [] {
      assert s + t == s;
    } else {
      var t' := t[..|t| - 1];
      var last := t[|t| - 1];
      assert (s + t)[..|s + t| - 1] == s + t';
      assert (s + t)[|s + t| - 1] == last;
      ParseAppend(s, t');
      var a: int, p: int, b: int, d: int := Parse(s), Pow10(|t'|), Parse(t'), DigitValue(last);
      assert Parse(s + t) == 10 * (a * p + b) + d;
      assert Parse(t) == 10 * b + d;
      assert Pow10(|t|) == 10 * p;
      Distribute(a, p, b, d);
    }
  }

  lemma Distribute(a: int, p: int, b: int, d: int)
    ensures 10 * (a * p + b) + d == a * (10 * p) + (10 * b + d)
  {
  }

  lemma {:induction false} ParseZeros(k: nat)
    ensures Parse(Zeros(k)) == 0
  {
    if k > 0 {
      assert Zeros(k)[..k - 1] == Zeros(k - 1);
      ParseZeros(k - 1);
    }
  }

  /** Leading zeros do not change the value. */
  lemma {:induction false} ParseLeadingZeros(k: nat, s: string)
    requires AllDigits(s)
    ensures AllDigits(Zeros(k) + s) && Parse(Zeros(k) + s) == Parse(s)
  {
    ParseAppend(Zeros(k), s);
    ParseZeros(k);
  }

  lemma {:induction false} ParseFromNat(n: nat)
    ensures Parse(FromNat(n)) == n
  {
    if n >= 10 {
      var s := FromNat(n / 10);
      ParseFromNat(n / 10);
      assert FromNat(n)[..|FromNat(n)| - 1] == s;
    }
  }

  /** The width of `str(n)` is the least k with n < 10^k (for n > 0). */
  lemma {:induction false} FromNatLength(n: nat)
    ensures n < Pow10(|FromNat(n)|)
    ensures n > 0 ==> Pow10(|FromNat(n)| - 1) <= n
  {
    if n >= 10 {
      FromNatLength(n / 10);
    }
  }

  /** A digit string without a leading zero is the canonical form of its value. */
  lemma {:induction false} FromNatParse(s: string)
    requires AllDigits(s) && |s| >= 1 && (s[0] != '0' || |s| == 1)
    ensures FromNat(Parse(s)) == s
    decreases |s|
  {
    var init := s[..|s| - 1];
    var d := DigitValue(s[|s| - 1]);
    if |s| == 1 {
      assert Parse(s) == 10 * Parse(init) + d;
      assert init == [];
    } else {
      assert init[0] == s[0];
      FromNatParse(init);
      ParseFromNat(Parse(init));
      assert Parse(init) > 0;
      var n := Parse(s);
      assert n == 10 * Parse(init) + d;
      assert n / 10 == Parse(init) && n % 10 == d;
      assert FromNat(n) == FromNat(Parse(init)) + [DigitChar(d)];
    }
  }

  /** Canonical decimal forms are injective. */
  lemma {:induction false} FromNatInjective(m: nat, n: nat)
    requires FromNat(m) == FromNat(n)
    ensures m == n
  {
    ParseFromNat(m);
    ParseFromNat(n);
  }

  /** Reading a zero-padded rendering back gives the number. */
  lemma {:induction false} PaddedParse(n: nat, width: nat)
    ensures Parse(Padded(n, width)) == n
  {
    var s := FromNat(n);
    var p := Padded(n, width);
    ParseFromNat(n);
    if |s| < width {
      var z := Zeros(width - |s|);
      assert p == z + s;
      ParseLeadingZeros(width - |s|, s);
      assert Parse(z + s) == n;
    } else {
      assert p == s;
    }
  }

  lemma {:induction false} Pow10Monotone(a: nat, b: nat)
    requires a <= b
    ensures Pow10(a) <= Pow10(b)
    decreases b
  {
    if a < b {
      Pow10Monotone(a, b - 1);
    }
  }

  lemma {:induction false} Pow10Reflect(x: nat, y: nat)
    requires Pow10(x) < Pow10(y)
    ensures x < y
  {
    if x > 0 && y > 0 {
      Pow10Reflect(x - 1, y - 1);
    }
  }

  /** Larger numbers never have shorter renderings. */
  lemma {:induction false} FromNatLengthMonotone(a: nat, b: nat)
    requires a <= b
    ensures |FromNat(a)| <= |FromNat(b)|
  {
    FromNatLength(a);
    FromNatLength(b);
    if a > 0 {
      Pow10Reflect(|FromNat(a)| - 1, |FromNat(b)|);
    }
  }

  /** Larger numbers never have shorter padded renderings. */
  lemma PaddedLengthMonotone(a: nat, b: nat, width: nat)
    requires a <= b
    ensures |Padded(a, width)| <= |Padded(b, width)|
  {
    FromNatLengthMonotone(a, b);
  }

  /** Numbers below 10^w have at most w digits. */
  lemma {:induction false} FromNatShort(n: nat, w: nat)
    requires 1 <= w && n < Pow10(w)
    ensures |FromNat(n)| <= w
  {
    FromNatLength(n);
    if n > 0 {
      Pow10Reflect(|FromNat(n)| - 1, w);
    }
  }
}
