/**
  Exact decimal arithmetic standing in for the JavaScript number handling
  the application does on amounts and balances: parseFloat on the way in,
  Number.prototype.toFixed on the way out. A decimal is an integer
  mantissa and a count of fractional digits, so "10.5" is Dec(105, 1)
  and a ledger amount of n stroops (10^-7 XLM) is Dec(n, 7).
 */
module Decimal {
  import opened Wrappers
  import opened Js

  function Pow10(k: nat): (r: nat)
    ensures r >= 1
  {
    if k == 0 then 1 else 10 * Pow10(k - 1)
  }

  lemma {:induction false} Pow10Add(a: nat, b: nat)
    ensures Pow10(a + b) == Pow10(a) * Pow10(b)
  {
    if b > 0 {
      Pow10Add(a, b - 1);
      calc {
        Pow10(a + b);
        10 * Pow10(a + b - 1);
        10 * (Pow10(a) * Pow10(b - 1));
        Pow10(a) * (10 * Pow10(b - 1));
      }
    }
  }

  /** A value mantissa / 10^scale. */
  datatype Dec = Dec(mantissa: int, scale: nat)

  // ---------------------------------------------------------------- digits

  predicate IsDigit(c: char)
  {
    '0' <= c <= '9'
  }

  predicate AllDigits(s: string)
  {
    forall i :: 0 <= i < |s| ==> IsDigit(s[i])
  }

  function DigitValue(c: char): (d: nat)
    requires IsDigit(c)
    ensures d < 10
  {
    (c as int) - ('0' as int)
  }

  function DigitChar(d: nat): (c: char)
    requires d < 10
    ensures IsDigit(c) && DigitValue(c) == d
  {
    (('0' as int) + d) as char
  }

  /** The number a string of decimal digits denotes, most significant first. */
  function DigitsValue(s: string): (v: nat)
    requires AllDigits(s)
    ensures v < Pow10(|s|)
  {
    if s == [] then 0
    else
      var init := s[..|s| - 1];
      assert AllDigits(init);
      DigitsValue(init) * 10 + DigitValue(s[|s| - 1])
  }

  /** The value of a concatenation of digit strings. */
  lemma {:induction false} DigitsValueAppend(a: string, b: string)
    requires AllDigits(a) && AllDigits(b)
    ensures AllDigits(a + b)
    ensures DigitsValue(a + b) == DigitsValue(a) * Pow10(|b|) + DigitsValue(b)
  {
    assert AllDigits(a + b);
    if b != [] {
      var b' := b[..|b| - 1];
      var d := DigitValue(b[|b| - 1]);
      assert (a + b)[..|a + b| - 1] == a + b';
      DigitsValueAppend(a, b');
      assert DigitsValue(a + b) == DigitsValue(a + b') * 10 + d;
      assert b[..|b| - 1] == b';
      assert DigitsValue(b) == DigitsValue(b') * 10 + d;
      assert Pow10(|b|) == 10 * Pow10(|b'|);
      ShiftDigit(DigitsValue(a), Pow10(|b'|), DigitsValue(b'), d);
    } else {
      assert a + b == a;
    }
  }

  lemma ShiftDigit(x: int, p: int, y: int, d: int)
    ensures (x * p + y) * 10 + d == x * (10 * p) + (y * 10 + d)
  {
  }

  /** Number.prototype.toString for a non-negative integer: its decimal
      numeral without leading zeros. */
  function Numeral(n: nat): (s: string)
    ensures |s| >= 1 && AllDigits(s) && DigitsValue(s) == n
    ensures |s| > 1 ==> s[0] != '0'
    decreases n
  {
    if n < 10 then [DigitChar(n)]
    else
      var s := Numeral(n / 10) + [DigitChar(n % 10)];
      assert s[..|s| - 1] == Numeral(n / 10);
      s
  }

  /** m * 10^k, one digit at a time. */
  function Shift(m: nat, k: nat): nat
  {
    if k == 0 then m else 10 * Shift(m, k - 1)
  }

  lemma {:induction false} ShiftIsProduct(m: nat, k: nat)
    ensures Shift(m, k) == m * Pow10(k)
  {
    if k > 0 {
      ShiftIsProduct(m, k - 1);
      TenTimes(m, Pow10(k - 1));
    }
  }

  lemma TenTimes(m: int, p: int)
    ensures 10 * (m * p) == m * (10 * p)
  {
  }

  /** n / 10^k: the digits left once the k lowest are dropped. */
  function Unshift(n: nat, k: nat): nat
  {
    if k == 0 then n else Unshift(n / 10, k - 1)
  }

  /** The k lowest digits of n, zero-padded on the left. */
  function LowDigits(n: nat, k: nat): (s: string)
    ensures |s| == k && AllDigits(s)
  {
    if k == 0 then [] else LowDigits(n / 10, k - 1) + [DigitChar(n % 10)]
  }

  /** Cutting n at its k-th digit: the high part times 10^k plus the
      value of the k low digits, which is below 10^k. */
  lemma {:induction false} SplitDigits(n: nat, k: nat)
    ensures n == Unshift(n, k) * Pow10(k) + DigitsValue(LowDigits(n, k))
    ensures DigitsValue(LowDigits(n, k)) < Pow10(k)
  {
    if k > 0 {
      var s := LowDigits(n, k);
      var t := LowDigits(n / 10, k - 1);
      assert s[..|s| - 1] == t;
      var u := Unshift(n / 10, k - 1);
      var p := Pow10(k - 1);
      var d := DigitsValue(t);
      assert DigitsValue(s) == d * 10 + n % 10;
      SplitDigits(n / 10, k - 1);
      ShiftDigit(u, p, d, n % 10);
      calc {
        n;
        (n / 10) * 10 + n % 10;
        (u * p + d) * 10 + n % 10;
        u * (10 * p) + (d * 10 + n % 10);
        Unshift(n, k) * Pow10(k) + DigitsValue(s);
      }
    }
  }

  /** n units of 10^-f written with exactly f fractional digits: the
      integer part, a point, the f lowest digits. */
  function FormatUnits(n: nat, f: nat): string
    requires f > 0
  {
    Numeral(Unshift(n, f)) + "." + LowDigits(n, f)
  }

  /** The shape toFixed(f) promises: digits, one point, exactly f digits
      after it, at least one before it. */
  lemma FormatUnitsShape(n: nat, f: nat)
    requires f > 0
    ensures var s := FormatUnits(n, f);
      && |s| >= f + 2 && s[|s| - f - 1] == '.'
      && (forall i :: 0 <= i < |s| && i != |s| - f - 1 ==> IsDigit(s[i]))
  {
    var a := Numeral(Unshift(n, f));
    var b := LowDigits(n, f);
    var s := a + "." + b;
    assert forall i :: 0 <= i < |a| ==> s[i] == a[i];
    assert forall i :: |a| < i < |s| ==> s[i] == b[i - |a| - 1];
  }

  // --------------------------------------------------------------- toFixed

  /** The integer n with n / 10^f nearest to m / 10^s, the larger one on a
      tie: the rounding Number.prototype.toFixed(f) performs. Dropping
      k = s - f digits rounds half up by adding half of 10^k first. */
  function RoundHalfUp(m: nat, s: nat, f: nat): (n: nat)
  {
    if s <= f then Shift(m, f - s)
    else Unshift(m + 5 * Pow10(s - f - 1), s - f)
  }

  /** RoundHalfUp meets its definition: n/10^f - m/10^s lies in
      (-1/2, 1/2] units of 10^-f, and no other integer does. */
  lemma {:induction false} RoundHalfUpNearest(m: nat, s: nat, f: nat)
    ensures var n := RoundHalfUp(m, s, f);
      -(Pow10(s) as int) < 2 * n * Pow10(s) - 2 * m * Pow10(f) <= Pow10(s)
  {
    var n := RoundHalfUp(m, s, f);
    if s <= f {
      RoundHalfUpExact(m, s, f);
    } else {
      var q := Pow10(s - f);
      RoundDownBounds(m, s, f);
      Pow10Add(s - f, f);
      ScaleBounds(n, m, q, Pow10(f));
    }
  }

  /** Dropping k = s - f digits after adding half of 10^k: the result n
      satisfies 2qn <= 2m + q < 2q(n + 1) for q = 10^k. */
  lemma RoundDownBounds(m: nat, s: nat, f: nat)
    requires s > f
    ensures var n := RoundHalfUp(m, s, f); var q := Pow10(s - f);
      0 <= (2 * m + q) - n * (2 * q) < 2 * q
  {
    var k := s - f;
    var q := Pow10(k);
    var x := m + 5 * Pow10(k - 1);
    SplitDigits(x, k);
    var r := DigitsValue(LowDigits(x, k));
    assert q == 2 * (5 * Pow10(k - 1));
    HalfUpBounds(m, Unshift(x, k), q, r);
  }

  /** Adding half of q before dividing by q: the quotient n satisfies
      2qn <= 2m + q < 2q(n + 1). */
  lemma HalfUpBounds(m: int, n: int, q: int, r: int)
    requires 0 <= r < q
    requires m + q / 2 == n * q + r && q % 2 == 0
    ensures 0 <= (2 * m + q) - n * (2 * q) < 2 * q
  {
  }

  /** From 2qn <= 2m + q < 2q(n + 1) (n is the floor of (2m + q) / 2q),
      scaled by p. */
  lemma ScaleBounds(n: int, m: int, q: int, p: int)
    requires q > 0 && p > 0
    requires 0 <= (2 * m + q) - n * (2 * q) < 2 * q
    ensures -(q * p) < 2 * n * (q * p) - 2 * m * p <= q * p
  {
    var k := 2 * n * q - 2 * m;
    assert -q < k <= q;
    assert 2 * n * (q * p) - 2 * m * p == k * p;
    MulBounds(k, q, p);
  }

  lemma MulBounds(k: int, q: int, p: int)
    requires p > 0 && -q < k <= q
    ensures -(q * p) < k * p <= q * p
  {
    assert (q - k) * p >= 0;
    assert (k + q) * p > 0;
  }

  /** Number.prototype.toFixed(f) for f >= 1 on a value below 10^21 (the
      range where toFixed does not switch to exponent notation): round the
      magnitude half up, prefix "-" when the value is negative. */
  function ToFixed(d: Dec, f: nat): (r: string)
    requires f > 0
    ensures |r| >= f + 2 && r[|r| - f - 1] == '.'
    ensures r[0] == '-' <==> d.mantissa < 0
  {
    var n := RoundHalfUp(if d.mantissa < 0 then -d.mantissa else d.mantissa, d.scale, f);
    FormatUnitsShape(n, f);
    if d.mantissa < 0 then "-" + FormatUnits(n, f) else FormatUnits(n, f)
  }

  // ------------------------------------------------------------ parseFloat

  /** The first index at or after i that is not white space. */
  function SkipSpace(s: string, i: nat): (k: nat)
    requires i <= |s|
    ensures i <= k <= |s|
    ensures forall j :: i <= j < k ==> IsWhiteSpace(s[j])
    ensures k < |s| ==> !IsWhiteSpace(s[k])
    decreases |s| - i
  {
    if i < |s| && IsWhiteSpace(s[i]) then SkipSpace(s, i + 1) else i
  }

  /** The end of the run of decimal digits that starts at i. */
  function DigitsEnd(s: string, i: nat): (k: nat)
    requires i <= |s|
    ensures i <= k <= |s|
    ensures forall j :: i <= j < k ==> IsDigit(s[j])
    ensures k < |s| ==> !IsDigit(s[k])
    decreases |s| - i
  {
    if i < |s| && IsDigit(s[i]) then DigitsEnd(s, i + 1) else i
  }

  /** The number the digits s[i..k] denote. */
  function ValueOf(s: string, i: nat, k: nat): nat
    requires i <= k <= |s|
    requires forall j :: i <= j < k ==> IsDigit(s[j])
    decreases k - i
  {
    if k == i then 0 else ValueOf(s, i, k - 1) * 10 + DigitValue(s[k - 1])
  }

  /** The exponent of `e[+|-]digits` at index i, or 0 when the text there
      is not a complete exponent (parseFloat("1e") is 1). */
  function ExponentAt(s: string, i: nat): int
    requires i <= |s|
  {
    if i + 1 < |s| && (s[i] == 'e' || s[i] == 'E') then
      var d := if s[i + 1] == '-' || s[i + 1] == '+' then i + 2 else i + 1;
      var e := DigitsEnd(s, d);
      if e == d then 0
      else if s[i + 1] == '-' then -(ValueOf(s, d, e) as int)
      else ValueOf(s, d, e)
    else 0
  }

  /** digits * 10^exponent / 10^fractionDigits as a decimal. */
  function Magnitude(digitsValue: nat, fractionDigits: nat, exponent: int): (d: Dec)
    ensures d.mantissa >= 0
    ensures exponent == 0 ==> d == Dec(digitsValue, fractionDigits)
  {
    if exponent >= 0 then Dec(Shift(digitsValue, exponent as nat), fractionDigits)
    else Dec(digitsValue, fractionDigits - exponent)
  }

  /** Where the digits of parseFloat's input begin: after the leading
      white space and an optional sign. */
  function NumberStart(text: string): (j: nat)
    ensures j <= |text|
  {
    var i := SkipSpace(text, 0);
    if i < |text| && (text[i] == '-' || text[i] == '+') then i + 1 else i
  }

  /** A numeral starts at j: a digit, or a point followed by a digit. */
  predicate StartsNumeral(s: string, j: nat)
  {
    || (j < |s| && IsDigit(s[j]))
    || (j + 1 < |s| && s[j] == '.' && IsDigit(s[j + 1]))
  }

  /** parseFloat on decimal notation: skip leading white space, read an
      optional sign, the longest prefix `digits [. digits]` that holds at
      least one digit, then an optional exponent; anything after that is
      ignored. None stands for NaN. */
  function ParseFloat(text: string): (r: Option<Dec>)
  {
    var i := SkipSpace(text, 0);
    var negative := i < |text| && text[i] == '-';
    var j := NumberStart(text);
    var k := DigitsEnd(text, j);
    var hasPoint := k < |text| && text[k] == '.';
    var l := if hasPoint then DigitsEnd(text, k + 1) else k;
    var fraction := if hasPoint then l - (k + 1) else 0;
    if k == j && fraction == 0 then None
    else
      var digits := Shift(ValueOf(text, j, k), fraction) + (if hasPoint then ValueOf(text, k + 1, l) else 0);
      var m := Magnitude(digits, fraction, ExponentAt(text, l));
      Some(Dec(if negative then -m.mantissa else m.mantissa, m.scale))
  }

  /** parseFloat returns NaN exactly when no numeral follows the leading
      white space and the sign, and only a "-" there makes it negative. */
  lemma ParseFloatNaN(text: string)
    ensures ParseFloat(text).None? <==> !StartsNumeral(text, NumberStart(text))
    ensures ParseFloat(text).Some? && ParseFloat(text).value.mantissa < 0 ==>
      SkipSpace(text, 0) < |text| && text[SkipSpace(text, 0)] == '-'
  {
  }

  /** A run of white space ends exactly where the white space stops. */
  lemma {:induction false} SkipSpaceAt(s: string, i: nat, k: nat)
    requires i <= k <= |s|
    requires forall j :: i <= j < k ==> IsWhiteSpace(s[j])
    requires k == |s| || !IsWhiteSpace(s[k])
    ensures SkipSpace(s, i) == k
    decreases k - i
  {
    if i < k {
      SkipSpaceAt(s, i + 1, k);
    }
  }

  /** A digit run ends exactly where the digits stop. */
  lemma {:induction false} DigitsEndAt(s: string, i: nat, k: nat)
    requires i <= k <= |s|
    requires forall j :: i <= j < k ==> IsDigit(s[j])
    requires k == |s| || !IsDigit(s[k])
    ensures DigitsEnd(s, i) == k
    decreases k - i
  {
    if i < k {
      DigitsEndAt(s, i + 1, k);
    }
  }

  /** ValueOf reads the digits of a slice as DigitsValue does. */
  lemma {:induction false} ValueOfSlice(s: string, i: nat, k: nat)
    requires i <= k <= |s|
    requires forall j :: i <= j < k ==> IsDigit(s[j])
    ensures AllDigits(s[i..k]) && ValueOf(s, i, k) == DigitsValue(s[i..k])
    decreases k - i
  {
    if i < k {
      ValueOfSlice(s, i, k - 1);
      assert s[i..k][..k - i - 1] == s[i..k - 1];
    }
  }

  /** Nothing but white space. */
  predicate AllWhiteSpace(s: string)
  {
    forall i :: 0 <= i < |s| ==> IsWhiteSpace(s[i])
  }

  /** s is laid out as a decorated numeral: white space up to i, an
      optional sign up to j, digits up to the point at p, digits up to l,
      then text that cannot continue a numeral. */
  predicate LaidOut(s: string, i: nat, j: nat, p: nat, l: nat)
  {
    && i <= j <= i + 1 && j < p < l <= |s|
    && AllWhiteSpace(s[..i])
    && (j == i + 1 ==> s[i] == '-' || s[i] == '+')
    && AllDigits(s[j..p]) && s[p] == '.' && AllDigits(s[p + 1..l])
    && (l == |s| || (!IsDigit(s[l]) && s[l] != 'e' && s[l] != 'E'))
  }

  /** Where parseFloat's scan of such text stops at each stage. */
  lemma LaidOutScan(s: string, i: nat, j: nat, p: nat, l: nat)
    requires LaidOut(s, i, j, p, l)
    ensures SkipSpace(s, 0) == i && NumberStart(s) == j
    ensures DigitsEnd(s, j) == p && DigitsEnd(s, p + 1) == l && ExponentAt(s, l) == 0
  {
    assert forall q :: 0 <= q < i ==> s[q] == s[..i][q];
    assert forall q :: j <= q < p ==> s[q] == s[j..p][q - j];
    assert forall q :: p < q < l ==> s[q] == s[p + 1..l][q - p - 1];
    SkipSpaceAt(s, 0, i);
    DigitsEndAt(s, j, p);
    DigitsEndAt(s, p + 1, l);
  }

  /** Two digit runs around the point at p read together as one numeral:
      the digits of s[j..p] + s[p + 1..l]. */
  lemma {:induction false} RunsValue(s: string, j: nat, p: nat, l: nat)
    requires j <= p < l <= |s|
    requires AllDigits(s[j..p]) && AllDigits(s[p + 1..l])
    ensures AllDigits(s[j..p] + s[p + 1..l])
    ensures Shift(ValueOf(s, j, p), l - p - 1) + ValueOf(s, p + 1, l) == DigitsValue(s[j..p] + s[p + 1..l])
  {
    assert forall q :: j <= q < p ==> s[q] == s[j..p][q - j];
    assert forall q :: p < q < l ==> s[q] == s[p + 1..l][q - p - 1];
    ValueOfSlice(s, j, p);
    ValueOfSlice(s, p + 1, l);
    DigitsValueAppend(s[j..p], s[p + 1..l]);
    ShiftIsProduct(ValueOf(s, j, p), l - p - 1);
  }

  /** Text so laid out parses to the value of its two digit runs, negated
      when the sign is "-". */
  lemma ParseLaidOut(s: string, i: nat, j: nat, p: nat, l: nat)
    requires LaidOut(s, i, j, p, l)
    ensures AllDigits(s[j..p] + s[p + 1..l])
    ensures var v := DigitsValue(s[j..p] + s[p + 1..l]);
      ParseFloat(s) == Some(Dec(if s[i] == '-' then -(v as int) else v, l - p - 1))
  {
    LaidOutScan(s, i, j, p, l);
    RunsValue(s, j, p, l);
    ParseScanned(s, i, j, p, l);
  }

  /** parseFloat once its scan is known: the digits of the two runs,
      scaled by the length of the second, negated after a "-". */
  lemma ParseScanned(s: string, i: nat, j: nat, p: nat, l: nat)
    requires i <= j && j < p < l <= |s| && s[p] == '.'
    requires SkipSpace(s, 0) == i && NumberStart(s) == j
    requires DigitsEnd(s, j) == p && DigitsEnd(s, p + 1) == l && ExponentAt(s, l) == 0
    ensures var v := Shift(ValueOf(s, j, p), l - p - 1) + ValueOf(s, p + 1, l);
      ParseFloat(s) == Some(Dec(if s[i] == '-' then -(v as int) else v, l - p - 1))
  {
    var v := Shift(ValueOf(s, j, p), l - p - 1) + ValueOf(s, p + 1, l);
    assert Magnitude(v, l - p - 1, ExponentAt(s, l)) == Dec(v, l - p - 1);
  }

  /** The same, with the runs and the sign named. */
  lemma ParseRuns(s: string, i: nat, j: nat, p: nat, l: nat, negative: bool, a: string, b: string)
    requires LaidOut(s, i, j, p, l)
    requires s[j..p] == a && s[p + 1..l] == b && (s[i] == '-' <==> negative)
    ensures AllDigits(a + b)
    ensures var v := DigitsValue(a + b);
      ParseFloat(s) == Some(Dec(if negative then -(v as int) else v, |b|))
  {
    ParseLaidOut(s, i, j, p, l);
  }

  /** w + sign + a + "." + b + tail is laid out as a decorated numeral,
      with a and b as its digit runs. */
  lemma {:induction false} DecoratedLaidOut(w: string, sign: string, a: string, b: string, tail: string)
    requires AllWhiteSpace(w)
    requires sign == "" || sign == "+" || sign == "-"
    requires |a| >= 1 && AllDigits(a) && AllDigits(b)
    requires tail == [] || (!IsDigit(tail[0]) && tail[0] != 'e' && tail[0] != 'E')
    ensures var s := w + sign + a + "." + b + tail;
      var i, j := |w|, |w| + |sign|;
      var p := j + |a|;
      var l := p + 1 + |b|;
      && LaidOut(s, i, j, p, l)
      && s[j..p] == a && s[p + 1..l] == b
      && (s[i] == '-' <==> sign == "-")
  {
    var s := w + sign + a + "." + b + tail;
    var i, j := |w|, |w| + |sign|;
    var p := j + |a|;
    var l := p + 1 + |b|;
    assert s == (w + sign) + (a + ("." + (b + tail)));
    assert s[..i] == w;
    assert s[j..p] == a;
    assert s[p + 1..] == b + tail;
    assert s[p + 1..l] == b;
    assert s[i] == (if sign == [] then a[0] else sign[0]);
    assert l < |s| ==> s[l] == tail[0];
  }

  /** parseFloat skips leading white space, honours a sign, reads a
      numeral `a.b` to the value its digits spell, with `b` as the
      fraction, and ignores trailing text that cannot continue it. */
  lemma {:induction false} ParseDecoratedNumeral(w: string, sign: string, a: string, b: string, tail: string)
    requires AllWhiteSpace(w)
    requires sign == "" || sign == "+" || sign == "-"
    requires |a| >= 1 && AllDigits(a) && AllDigits(b)
    requires tail == [] || (!IsDigit(tail[0]) && tail[0] != 'e' && tail[0] != 'E')
    ensures AllDigits(a + b)
    ensures var v := DigitsValue(a + b);
      ParseFloat(w + sign + a + "." + b + tail) == Some(Dec(if sign == "-" then -(v as int) else v, |b|))
  {
    var s := w + sign + a + "." + b + tail;
    var j := |w| + |sign|;
    DecoratedLaidOut(w, sign, a, b, tail);
    ParseRuns(s, |w|, j, j + |a|, j + |a| + 1 + |b|, sign == "-", a, b);
  }

  /** A plain numeral `a.b` parses to the value it spells. */
  lemma {:induction false} ParsePlainNumeral(a: string, b: string)
    requires |a| >= 1 && AllDigits(a) && AllDigits(b)
    ensures AllDigits(a + b)
    ensures ParseFloat(a + "." + b) == Some(Dec(DigitsValue(a + b), |b|))
  {
    assert [] + [] + a + "." + b + [] == a + "." + b;
    ParseDecoratedNumeral([], [], a, b, []);
  }

  /** toFixed's output reads back, through parseFloat, as exactly the
      rounded value: n units of 10^-f print as a numeral that parses to
      Dec(n, f). */
  lemma {:induction false} ParseFormatUnits(n: nat, f: nat)
    requires f > 0
    ensures ParseFloat(FormatUnits(n, f)) == Some(Dec(n, f))
  {
    var a := Numeral(Unshift(n, f));
    var b := LowDigits(n, f);
    assert FormatUnits(n, f) == a + "." + b;
    ParsePlainNumeral(a, b);
    DigitsValueAppend(a, b);
    SplitDigits(n, f);
  }

  /** What toFixed prints for a non-negative value parses back to that
      value rounded to f digits, so a formatted amount denotes the rounded
      amount and no other. */
  lemma ToFixedReadsBack(d: Dec, f: nat)
    requires f > 0 && d.mantissa >= 0
    ensures ParseFloat(ToFixed(d, f)) == Some(Dec(RoundHalfUp(d.mantissa, d.scale, f), f))
  {
    ParseFormatUnits(RoundHalfUp(d.mantissa, d.scale, f), f);
  }

  /** When the value already has at most f fractional digits, toFixed(f)
      loses nothing: the rounded value equals the input exactly. */
  lemma {:induction false} RoundHalfUpExact(m: nat, s: nat, f: nat)
    requires s <= f
    ensures RoundHalfUp(m, s, f) * Pow10(s) == m * Pow10(f)
  {
    ShiftIsProduct(m, f - s);
    Pow10Add(f - s, s);
    calc {
      RoundHalfUp(m, s, f) * Pow10(s);
      m * Pow10(f - s) * Pow10(s);
      m * (Pow10(f - s) * Pow10(s));
    }
  }

  /** parseFloat reads exponent notation: "1e-8" is 10^-8. */
  lemma ParseExponentNotation()
    ensures ParseFloat("1e-8") == Some(Dec(1, 8))
  {
    assert SkipSpace("1e-8", 0) == 0;
    assert DigitsEnd("1e-8", 0) == 1;
    assert DigitsEnd("1e-8", 3) == 4;
  }

  /** A value below half a unit of the last digit kept prints as zero:
      (10^-8).toFixed(7) is "0.0000000". */
  lemma ToFixedBelowHalfUnit()
    ensures ToFixed(Dec(1, 8), 7) == "0.0000000"
  {
    assert RoundHalfUp(1, 8, 7) == 0;
    assert FormatUnits(0, 7) == "0.0000000";
  }

  // ------------------------------------------------------------- comparisons

  /** value > 0 */
  predicate IsPositive(d: Dec)
  {
    d.mantissa > 0
  }

  /** value < 1 */
  predicate LessThanOne(d: Dec)
  {
    d.mantissa < Pow10(d.scale)
  }
}
