/** Decimal text of non-negative integers: Python's `str(n)` and
    `str(n).zfill(w)`, the value of a digit string, and string order. */
module DecimalText {

  /** 10 raised to the power k. */
  function Pow10(k: nat): (p: nat)
    ensures p >= 1
  {
    if k == 0 then 1 else 10 * Pow10(k - 1)
  }

  predicate IsDigit(c: char) {
    '0' <= c <= '9'
  }

  predicate AllDigits(s: string) {
    forall i :: 0 <= i < |s| ==> IsDigit(s[i])
  }

  function DigitValue(c: char): (d: nat)
    requires IsDigit(c)
    ensures d < 10
  {
    c as int - '0' as int
  }

  function DigitChar(d: nat): (c: char)
    requires d < 10
    ensures IsDigit(c) && DigitValue(c) == d
  {
    ('0' as int + d) as char
  }

  /** The number a digit string denotes, read most significant digit first;
      leading zeros contribute nothing. */
  function Value(s: string): (v: nat)
    requires AllDigits(s)
    ensures v < Pow10(|s|)
  {
    if s == [] then 0
    else
      var rest, d, p := Value(s[1..]), DigitValue(s[0]), Pow10(|s| - 1);
      MulSucc(d, p);
      MulMonotone(d + 1, 10, p);
      d * p + rest
  }

  /** Python's `str(n)` for a non-negative integer: no sign, no leading zero. */
  function Decimal(n: nat): (s: string)
    ensures |s| >= 1 && AllDigits(s)
    ensures n > 0 ==> s[0] != '0'
  {
    if n < 10 then [DigitChar(n)] else Decimal(n / 10) + [DigitChar(n % 10)]
  }

  /** Python's `s.zfill(width)` for an unsigned string: zeros are put in front
      until the string is `width` long; a longer string is left as it is. */
  function ZFill(s: string, width: nat): (r: string)
    ensures |r| == if |s| >= width then |s| else width
  {
    if |s| >= width then s else seq(width - |s|, _ => '0') + s
  }

  /** Padding returns a string of at least `width` characters unchanged, and
      otherwise puts only zeros in front of it. */
  lemma ZFillKeeps(s: string, width: nat)
    ensures |s| >= width ==> ZFill(s, width) == s
    ensures var r := ZFill(s, width);
      r[|r| - |s|..] == s && forall i :: 0 <= i < |r| - |s| ==> r[i] == '0'
  {
  }

  /** Padding a digit string with zeros keeps it a digit string of the same
      value. */
  lemma ZFillValue(s: string, width: nat)
    requires AllDigits(s)
    ensures AllDigits(ZFill(s, width)) && Value(ZFill(s, width)) == Value(s)
  {
    ValueLeadingZeros(if |s| >= width then 0 else width - |s|, s);
  }

  /** Python's string order `a < b`: lexicographic by character, a proper
      prefix before the longer string. */
  predicate LexLess(a: string, b: string): (less: bool)
    ensures less ==> a != b
  {
    if a == [] then b != []
    else b != [] && (a[0] < b[0] || (a[0] == b[0] && LexLess(a[1..], b[1..])))
  }

  lemma {:induction false} ValueAppend(s: string, c: char)
    requires AllDigits(s) && IsDigit(c)
    ensures AllDigits(s + [c])
    ensures Value(s + [c]) == 10 * Value(s) + DigitValue(c)
  {
    if s != [] {
      var t := s + [c];
      assert t[0] == s[0] && t[1..] == s[1..] + [c];
      ValueAppend(s[1..], c);
      var d, p, v := DigitValue(s[0]), Pow10(|s| - 1), Value(s[1..]);
      assert Pow10(|t| - 1) == 10 * p;
      assert Value(t) == d * (10 * p) + (10 * v + DigitValue(c));
      MulAssoc(d, 10, p);
      assert Value(s) == d * p + v;
    }
  }

  lemma MulAssoc(x: nat, y: nat, z: nat)
    ensures x * (y * z) == y * (x * z)
  {
  }

  lemma MulSucc(x: nat, z: nat)
    ensures (x + 1) * z == x * z + z
  {
  }

  lemma MulMonotone(x: nat, y: nat, z: nat)
    requires x <= y
    ensures x * z <= y * z
  {
  }

  /** Writing a number in decimal and reading the digits back is the identity. */
  lemma {:induction false} DecimalValue(n: nat)
    ensures Value(Decimal(n)) == n
  {
    if n < 10 {
      assert Decimal(n)[1..] == [];
    } else {
      DecimalValue(n / 10);
      ValueAppend(Decimal(n / 10), DigitChar(n % 10));
    }
  }

  /** A number below 10^w has at most w digits. */
  lemma {:induction false} DecimalLength(n: nat, w: nat)
    requires w >= 1 && n < Pow10(w)
    ensures |Decimal(n)| <= w
  {
    if n >= 10 {
      assert Pow10(1) == 10;
      assert w >= 2;
      assert n / 10 < Pow10(w - 1);
      DecimalLength(n / 10, w - 1);
    }
  }

  /** A number that fits `width` digits is written in at most `width` characters. */
  lemma FitsWidth(n: nat, width: nat)
    ensures 1 <= width && n < Pow10(width) ==> |Decimal(n)| <= width
  {
    if width >= 1 && n < Pow10(width) {
      DecimalLength(n, width);
    }
  }

  /** Leading zeros do not change the value. */
  lemma {:induction false} ValueLeadingZeros(k: nat, s: string)
    requires AllDigits(s)
    ensures AllDigits(seq(k, _ => '0') + s)
    ensures Value(seq(k, _ => '0') + s) == Value(s)
  {
    if k > 0 {
      var t := seq(k, _ => '0') + s;
      assert t[0] == '0' && t[1..] == seq(k - 1, _ => '0') + s;
      ValueLeadingZeros(k - 1, s);
      assert DigitValue(t[0]) == 0;
    } else {
      assert seq(k, _ => '0') + s == s;
    }
  }

  /** Two digit strings of one length compare as strings the way their values
      compare as numbers. */
  lemma {:induction false} LexLessOfValues(a: string, b: string)
    requires AllDigits(a) && AllDigits(b) && |a| == |b|
    requires Value(a) < Value(b)
    ensures LexLess(a, b)
  {
    assert b != [];
    FirstDigitOrder(a, b);
    if a[0] == b[0] {
      assert Value(a[1..]) < Value(b[1..]);
      LexLessOfValues(a[1..], b[1..]);
    }
  }

  /** The leading digit of the larger of two equally long digit strings is
      not the smaller one. */
  lemma FirstDigitOrder(a: string, b: string)
    requires AllDigits(a) && AllDigits(b) && |a| == |b| > 0
    requires Value(a) < Value(b)
    ensures a[0] <= b[0]
  {
    var p: int := Pow10(|a| - 1);
    var da: int, db: int := DigitValue(a[0]), DigitValue(b[0]);
    var ra: int, rb: int := Value(a[1..]), Value(b[1..]);
    assert Value(a) as int == da * p + ra;
    assert Value(b) as int == db * p + rb;
    if da > db {
      HigherDigitLarger(da, db, ra, rb, p);
    }
  }

  /** A higher leading digit outweighs any rest below the place value. */
  lemma HigherDigitLarger(da: nat, db: nat, ra: nat, rb: nat, p: nat)
    requires db < da && rb < p
    ensures db * p + rb < da * p + ra
  {
    MulMonotone(db + 1, da, p);
    MulSucc(db, p);
  }

  /** A shared prefix does not change the string order. */
  lemma {:induction false} LexLessPrefix(p: string, a: string, b: string)
    ensures LexLess(p + a, p + b) <==> LexLess(a, b)
  {
    if p != [] {
      assert (p + a)[1..] == p[1..] + a;
      assert (p + b)[1..] == p[1..] + b;
      LexLessPrefix(p[1..], a, b);
    } else {
      assert p + a == a && p + b == b;
    }
  }

  /** The decimal text of `n` padded with zeros to `width` characters:
      a digit string that reads back as `n`, exactly `width` long when `n`
      fits in `width` digits. */
  function ZeroPadded(n: nat, width: nat): (s: string)
    ensures AllDigits(s) && Value(s) == n
    ensures |s| >= width
    ensures 1 <= width && n < Pow10(width) ==> |s| == width
  {
    var digits := Decimal(n);
    DecimalValue(n);
    ZFillValue(digits, width);
    FitsWidth(n, width);
    ZFill(digits, width)
  }

  /** Zero-padding to one width is strictly increasing in string order as
      long as the numbers fit the width. */
  lemma ZeroPaddedIncreasing(a: nat, b: nat, width: nat)
    requires a < b < Pow10(width)
    ensures LexLess(ZeroPadded(a, width), ZeroPadded(b, width))
  {
    LexLessOfValues(ZeroPadded(a, width), ZeroPadded(b, width));
  }
}
