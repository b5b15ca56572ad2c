/**
 * Money arithmetic without floating point. A number that the source obtains
 * from `parseFloat` is an exact decimal `Dec(units, scale)` = units / 10^scale;
 * an amount that has gone through `Math.round(x * 100) / 100` is a whole number
 * of cents.
 */
module Money {
  import opened Wrappers
  import Text

  function Pow10(k: nat): (r: int)
    ensures r >= 1
  {
    if k == 0 then 1 else 10 * Pow10(k - 1)
  }

  /** The exact decimal units / 10^scale. */
  datatype Dec = Dec(units: int, scale: nat)

  /** A JavaScript number as the source sees it: NaN or a finite decimal. */
  datatype Num = NaN | Finite(value: Dec)

  /** A whole number of cents as a decimal with two fractional digits. */
  function FromCents(cents: int): Dec {
    Dec(cents, 2)
  }

  /** x > 0 */
  predicate IsPositive(d: Dec) {
    d.units > 0
  }

  /** x <= n, for a whole number n */
  predicate AtMost(d: Dec, n: int) {
    d.units <= n * Pow10(d.scale)
  }

  /**
   * `Math.round(x * 100)`: the whole number of cents nearest to x, a tie going
   * upwards. The ensures says |c - 100x| <= 1/2, with -1/2 excluded.
   */
  function RoundCents(d: Dec): (c: int)
    ensures -Pow10(d.scale) < 2 * (c * Pow10(d.scale) - 100 * d.units) <= Pow10(d.scale)
  {
    var p := Pow10(d.scale);
    var q := (200 * d.units + p) / (2 * p);
    assert 200 * d.units + p == 2 * p * q + (200 * d.units + p) % (2 * p);
    q
  }

  /** Only one whole number lies within half a cent of 100x, so RoundCents is exact. */
  lemma RoundCentsUnique(d: Dec, c: int)
    requires -Pow10(d.scale) < 2 * (c * Pow10(d.scale) - 100 * d.units) <= Pow10(d.scale)
    ensures c == RoundCents(d)
  {
    HalfUnique(c, RoundCents(d), Pow10(d.scale), 100 * d.units);
  }

  /** Two whole numbers x and y with x·p and y·p both within p/2 of u are equal. */
  lemma HalfUnique(x: int, y: int, p: int, u: int)
    requires p > 0
    requires -p < 2 * (x * p - u) <= p
    requires -p < 2 * (y * p - u) <= p
    ensures x == y
  {
    var k := x - y;
    assert k * p == x * p - y * p;
    MulMono(1, k, p);
    MulMono(k, -1, p);
  }

  lemma MulMono(a: int, b: int, p: int)
    requires p >= 0
    ensures a <= b ==> a * p <= b * p
  {
  }

  /** A number that is already a whole number of cents is left unchanged. */
  lemma RoundCentsOfCents(cents: int)
    ensures RoundCents(FromCents(cents)) == cents
  {
    assert Pow10(2) == 100;
    RoundCentsUnique(FromCents(cents), cents);
  }

  /** 0 < x <= 999999 gives 0 <= cents <= 99999900: zero is possible, a negative result is not. */
  lemma RoundCentsBounds(d: Dec)
    requires IsPositive(d) && AtMost(d, 999999)
    ensures 0 <= RoundCents(d) <= 99999900
  {
    var p := Pow10(d.scale);
    var c := RoundCents(d);
    if c < 0 {
      MulMono(c, -1, p);
    }
    if c > 99999900 {
      MulMono(99999901, c, p);
    }
  }

  /** 0.004 rounds to 0 cents: a positive amount can round to zero. */
  lemma RoundsToZero()
    ensures IsPositive(Dec(4, 3)) && RoundCents(Dec(4, 3)) == 0
  {
    assert Pow10(3) == 1000;
    RoundCentsUnique(Dec(4, 3), 0);
  }

  function DigitValue(c: char): (v: nat)
    requires Text.IsDigit(c)
    ensures v < 10
  {
    c as int - '0' as int
  }

  /** The value of a string of decimal digits. */
  function DigitsValue(ds: string): (v: nat)
    requires forall i :: 0 <= i < |ds| ==> Text.IsDigit(ds[i])
  {
    if ds == [] then 0
    else 10 * DigitsValue(ds[..|ds| - 1]) + DigitValue(ds[|ds| - 1])
  }

  /** The longest prefix of s made of digits. */
  function LeadingDigits(s: string): (ds: string)
    ensures |ds| <= |s| && ds == s[..|ds|]
    ensures forall i :: 0 <= i < |ds| ==> Text.IsDigit(ds[i])
    ensures |ds| < |s| ==> !Text.IsDigit(s[|ds|])
  {
    if s != [] && Text.IsDigit(s[0]) then [s[0]] + LeadingDigits(s[1..]) else []
  }

  /** s begins with a digit, or with a period followed by a digit. */
  predicate StartsNumber(s: string) {
    || (|s| >= 1 && Text.IsDigit(s[0]))
    || (|s| >= 2 && s[0] == '.' && Text.IsDigit(s[1]))
  }

  /**
   * `parseFloat` on a string of digits and periods: the longest prefix of the
   * form digits, optionally followed by a period and more digits; at least one
   * digit is needed, otherwise the result is NaN.
   */
  function ParseFloat(s: string): (r: Option<Dec>)
    ensures r.Some? ==> r.value.units >= 0
    ensures r.None? <==> !StartsNumber(s)
  {
    var whole := LeadingDigits(s);
    var rest := s[|whole|..];
    var frac := if rest != [] && rest[0] == '.' then LeadingDigits(rest[1..]) else [];
    if whole == [] && frac == [] then None
    else Some(Dec(DigitsValue(whole + frac), |frac|))
  }

  lemma DigitsValueAppend(a: string, b: string)
    requires forall i :: 0 <= i < |a| ==> Text.IsDigit(a[i])
    requires forall i :: 0 <= i < |b| ==> Text.IsDigit(b[i])
    ensures forall i :: 0 <= i < |a + b| ==> Text.IsDigit((a + b)[i])
    ensures DigitsValue(a + b) == DigitsValue(a) * Pow10(|b|) + DigitsValue(b)
  {
    if b != [] {
      var b' := b[..|b| - 1];
      assert (a + b)[..|a + b| - 1] == a + b';
      DigitsValueAppend(a, b');
      var x := DigitValue(b[|b| - 1]);
      calc {
        DigitsValue(a + b);
        10 * DigitsValue(a + b') + x;
        10 * (DigitsValue(a) * Pow10(|b'|) + DigitsValue(b')) + x;
        { Assoc(DigitsValue(a), Pow10(|b'|)); }
        DigitsValue(a) * Pow10(|b|) + (10 * DigitsValue(b') + x);
      }
    } else {
      assert a + b == a;
    }
  }

  lemma Assoc(x: int, y: int)
    ensures 10 * (x * y) == x * (10 * y)
  {
  }

  lemma {:induction false} LeadingDigitsOfDigits(ds: string, t: string)
    requires forall i :: 0 <= i < |ds| ==> Text.IsDigit(ds[i])
    requires t == [] || !Text.IsDigit(t[0])
    ensures LeadingDigits(ds + t) == ds
  {
    if ds == [] {
      assert ds + t == t;
    } else {
      var s := ds + t;
      assert s[0] == ds[0] && Text.IsDigit(s[0]);
      assert s[1..] == ds[1..] + t;
      LeadingDigitsOfDigits(ds[1..], t);
      assert [ds[0]] + ds[1..] == ds;
    }
  }

  /** How ParseFloat reads a string whose digit runs are known. */
  lemma ParseFloatParts(s: string, w: string, f: string)
    requires LeadingDigits(s) == w
    requires |w| < |s| && s[|w|] == '.' && LeadingDigits(s[|w| + 1..]) == f
    requires w != [] || f != []
    ensures forall i :: 0 <= i < |w + f| ==> Text.IsDigit((w + f)[i])
    ensures ParseFloat(s) == Some(Dec(DigitsValue(w + f), |f|))
  {
    assert s[|w|..][1..] == s[|w| + 1..];
  }

  /** A digit run w followed by a point: LeadingDigits stops at the point. */
  lemma WholeRun(w: string, rest: string)
    requires forall i :: 0 <= i < |w| ==> Text.IsDigit(w[i])
    requires rest != [] && rest[0] == '.'
    ensures LeadingDigits(w + rest) == w
  {
    LeadingDigitsOfDigits(w, rest);
  }

  /** The whole-number run of "w.f" followed by a non-digit is w. */
  lemma WholeRunOf(s: string, w: string, f: string, tail: string)
    requires forall i :: 0 <= i < |w| ==> Text.IsDigit(w[i])
    requires s == w + "." + f + tail
    ensures LeadingDigits(s) == w
  {
    var rest := "." + f + tail;
    assert s == w + rest;
    WholeRun(w, rest);
  }

  /** The fraction run of "w.f" followed by a non-digit is f. */
  lemma FractionRunOf(s: string, w: string, f: string, tail: string)
    requires forall i :: 0 <= i < |f| ==> Text.IsDigit(f[i])
    requires tail == [] || !Text.IsDigit(tail[0])
    requires s == w + "." + f + tail
    ensures |w| < |s| && s[|w|] == '.'
    ensures LeadingDigits(s[|w| + 1..]) == f
  {
    var rest := "." + f + tail;
    assert s == w + rest;
    assert s[|w| + 1..] == f + tail by {
      assert s[|w| + 1..] == rest[1..];
    }
    LeadingDigitsOfDigits(f, tail);
  }

  /**
   * "w.f" with digit strings w and f parses to the decimal w.f exactly, and any
   * trailing text that starts with something other than a digit is ignored.
   */
  lemma {:induction false} ParseFloatDecimal(w: string, f: string, tail: string)
    requires forall i :: 0 <= i < |w| ==> Text.IsDigit(w[i])
    requires forall i :: 0 <= i < |f| ==> Text.IsDigit(f[i])
    requires w != [] || f != []
    requires tail == [] || !Text.IsDigit(tail[0])
    ensures ParseFloat(w + "." + f + tail) == Some(Dec(DigitsValue(w) * Pow10(|f|) + DigitsValue(f), |f|))
  {
    var s := w + "." + f + tail;
    WholeRunOf(s, w, f, tail);
    FractionRunOf(s, w, f, tail);
    ParseFloatParts(s, w, f);
    DigitsValueAppend(w, f);
  }

  /** A run of digits followed by neither a digit nor a period parses to that whole number. */
  lemma ParseFloatWhole(w: string, tail: string)
    requires w != [] && forall i :: 0 <= i < |w| ==> Text.IsDigit(w[i])
    requires tail == [] || (!Text.IsDigit(tail[0]) && tail[0] != '.')
    ensures ParseFloat(w + tail) == Some(Dec(DigitsValue(w), 0))
  {
    LeadingDigitsOfDigits(w, tail);
    assert (w + tail)[|w|..] == tail;
    assert w + [] == w;
  }
}
