/** Money as text: parseMoneyDecimal and formatMoneyMinor are inverse to each other. */
module Money {
  import opened Tables

  /** Number.MAX_SAFE_INTEGER. */
  const MAX_SAFE: nat := 9007199254740991

  predicate IsDigit(c: char) {
    '0' <= c <= '9'
  }

  predicate AllDigits(s: string) {
    forall i | 0 <= i < |s| :: IsDigit(s[i])
  }

  /** 0|[1-9]\d* */
  predicate Canonical(s: string) {
    AllDigits(s) && |s| >= 1 && (s[0] == '0' ==> |s| == 1)
  }

  function DigitOf(c: char): nat
    requires IsDigit(c)
  {
    c as int - '0' as int
  }

  function CharOf(d: nat): (c: char)
    requires d < 10
    ensures IsDigit(c) && DigitOf(c) == d
  {
    ('0' as int + d) as char
  }

  function Power10(n: nat): (p: nat)
    ensures p >= 1
  {
    if n == 0 then 1 else 10 * Power10(n - 1)
  }

  function Value(s: string): nat
    requires AllDigits(s)
  {
    if s == [] then 0 else 10 * Value(s[..|s| - 1]) + DigitOf(s[|s| - 1])
  }

  /** String(n). */
  function Digits(n: nat): string {
    if n < 10 then [CharOf(n)] else Digits(n / 10) + [CharOf(n % 10)]
  }

  function Zeros(n: nat): (z: string)
    ensures |z| == n && AllDigits(z) && forall i | 0 <= i < n :: z[i] == '0'
  {
    seq(n, _ => '0')
  }

  function PadStart(s: string, width: nat): string {
    if |s| >= width then s else Zeros(width - |s|) + s
  }

  function PadEnd(s: string, width: nat): string {
    if |s| >= width then s else s + Zeros(width - |s|)
  }

  /** The position of the first point, or the length. */
  function Point(s: string): (at: nat)
    ensures at <= |s| && (at < |s| ==> s[at] == '.') && forall i | 0 <= i < at :: s[i] != '.'
  {
    if s == [] || s[0] == '.' then 0 else 1 + Point(s[1..])
  }

  function Whole(s: string): string {
    s[..Point(s)]
  }

  function Fraction(s: string): string {
    if Point(s) == |s| then "" else s[Point(s) + 1..]
  }

  /** ^(0|[1-9]\d*)(?:\.(\d{1,scale}))?$ */
  predicate Matches(s: string, scale: nat) {
    && Canonical(Whole(s)) && AllDigits(Fraction(s))
    && (Point(s) < |s| ==> 1 <= |Fraction(s)| <= scale)
  }

  /** parseMoneyDecimal; None stands for its errors. */
  function Parse(s: string, scale: nat): Option<nat> {
    if !Matches(s, scale) then None
    else
      PadEndDigits(Fraction(s), scale);
      var minor := Value(Whole(s)) * Power10(scale) + Value(PadEnd(Fraction(s), scale));
      if minor > MAX_SAFE then None else Some(minor)
  }

  function Quotient(value: nat, divisor: nat): (q: nat)
    requires divisor >= 1
    ensures q * divisor <= value
  {
    value / divisor
  }

  /** Math.floor(value / 10 ** scale). */
  function Major(value: nat, scale: nat): nat {
    Quotient(value, Power10(scale))
  }

  /** value % 10 ** scale. */
  function Minor(value: nat, scale: nat): nat {
    value % Power10(scale)
  }

  /** formatMoneyMinor; None stands for its error. */
  function Format(value: int, scale: nat): Option<string> {
    if !(0 <= value <= MAX_SAFE) then None
    else Some(Digits(Major(value, scale)) + "." + PadStart(Digits(Minor(value, scale)), scale))
  }

  /** The text with its fraction filled up to the scale. */
  function Filled(s: string, scale: nat): string {
    Whole(s) + "." + PadEnd(Fraction(s), scale)
  }

  // ---------- digit strings ----------

  lemma PadEndDigits(s: string, width: nat)
    requires AllDigits(s)
    ensures AllDigits(PadEnd(s, width)) && |PadEnd(s, width)| == if |s| >= width then |s| else width
  {
  }

  lemma {:induction false} DigitsCanonical(n: nat)
    ensures Canonical(Digits(n)) && Value(Digits(n)) == n
    ensures n > 0 ==> Digits(n)[0] != '0'
  {
    if n >= 10 {
      DigitsCanonical(n / 10);
      var s := Digits(n);
      assert s[..|s| - 1] == Digits(n / 10);
    } else {
      assert Digits(n) == [CharOf(n)] && Digits(n)[..0] == [];
    }
  }

  lemma {:induction false} ValueBound(s: string)
    requires AllDigits(s)
    ensures Value(s) < Power10(|s|)
  {
    if s != [] {
      ValueBound(s[..|s| - 1]);
    }
  }

  lemma LastDigit(p: nat, d: nat, q: nat, e: nat)
    requires d < 10 && e < 10 && 10 * p + d == 10 * q + e
    ensures p == q && d == e
  {
  }

  /** Digit strings of one length are told apart by their values. */
  lemma {:induction false} SameValue(a: string, b: string)
    requires AllDigits(a) && AllDigits(b) && |a| == |b| && Value(a) == Value(b)
    ensures a == b
    decreases |a|
  {
    if a != [] {
      var x, y := a[..|a| - 1], b[..|b| - 1];
      LastDigit(Value(x), DigitOf(a[|a| - 1]), Value(y), DigitOf(b[|b| - 1]));
      SameValue(x, y);
      assert a == x + [a[|a| - 1]] && b == y + [b[|b| - 1]];
    }
  }

  lemma {:induction false} ZerosInFront(n: nat, s: string)
    requires AllDigits(s)
    ensures AllDigits(Zeros(n) + s) && Value(Zeros(n) + s) == Value(s)
    decreases |s|, n
  {
    var t := Zeros(n) + s;
    if s != [] {
      ZerosInFront(n, s[..|s| - 1]);
      assert t[..|t| - 1] == Zeros(n) + s[..|s| - 1];
    } else if n > 0 {
      ZerosInFront(n - 1, s);
      assert t[..|t| - 1] == Zeros(n - 1) + s;
    }
  }

  lemma DigitsStep(v: nat, d: nat)
    requires v >= 1 && d < 10
    ensures Digits(10 * v + d) == Digits(v) + [CharOf(d)]
  {
    assert (10 * v + d) / 10 == v && (10 * v + d) % 10 == d;
  }

  lemma ValueStep(front: string, last: char)
    requires AllDigits(front) && IsDigit(last)
    ensures AllDigits(front + [last]) && Value(front + [last]) == 10 * Value(front) + DigitOf(last)
    ensures CharOf(DigitOf(last)) == last
  {
    var s := front + [last];
    assert s[..|s| - 1] == front && s[|s| - 1] == last;
  }

  /** A canonical text of a value is its only one. */
  lemma {:induction false} CanonicalDigits(s: string)
    requires Canonical(s)
    ensures Digits(Value(s)) == s
    decreases |s|
  {
    var front, last := s[..|s| - 1], s[|s| - 1];
    ValueStep(front, last);
    assert s == front + [last];
    if |s| == 1 {
      assert front == [] && Value(front) == 0;
    } else {
      assert Canonical(front) && front[0] != '0';
      hide Value, Digits, Canonical, AllDigits;
      CanonicalDigits(front);
      Leading(front);
      DigitsStep(Value(front), DigitOf(last));
    }
  }

  lemma {:induction false} Leading(s: string)
    requires AllDigits(s) && |s| >= 1 && s[0] != '0'
    ensures Value(s) >= 1
    decreases |s|
  {
    if |s| > 1 {
      Leading(s[..|s| - 1]);
    }
  }

  lemma {:induction false} DigitsShort(n: nat, width: nat)
    requires n < Power10(width) && width >= 1
    ensures |Digits(n)| <= width
    decreases width
  {
    assert Power10(width) == 10 * Power10(width - 1) && Power10(0) == 1;
    if n >= 10 {
      DigitsShort(n / 10, width - 1);
    }
  }

  lemma Padded(n: nat, width: nat)
    requires n < Power10(width) && width >= 1
    ensures var s := PadStart(Digits(n), width); |s| == width && AllDigits(s) && Value(s) == n
  {
    DigitsShort(n, width);
    DigitsCanonical(n);
    if |Digits(n)| < width {
      ZerosInFront(width - |Digits(n)|, Digits(n));
    }
  }

  // ---------- texts with a point ----------

  lemma {:induction false} PointAt(a: string, b: string)
    requires AllDigits(a)
    ensures Point(a + "." + b) == |a|
    decreases |a|
  {
    var s := a + "." + b;
    if a != [] {
      PointAt(a[1..], b);
      assert s[1..] == a[1..] + "." + b;
    }
  }

  lemma Parts(a: string, b: string)
    requires AllDigits(a)
    ensures Whole(a + "." + b) == a && Fraction(a + "." + b) == b
  {
    PointAt(a, b);
    var s := a + "." + b;
    assert s[..|a|] == a && s[|a| + 1..] == b;
  }

  lemma Recombined(v: nat, scale: nat)
    ensures Major(v, scale) * Power10(scale) + Minor(v, scale) == v && Minor(v, scale) < Power10(scale)
  {
  }

  lemma Apart(k: int, f: nat)
    ensures k == 0 || k * f >= f || k * f + f <= 0
  {
  }

  lemma Distributed(a: nat, b: nat, f: nat)
    ensures (a - b) * f == a * f - b * f
  {
  }

  lemma PartsUnique(q: nat, r: nat, m: nat, n: nat, f: nat)
    requires q * f + r == m * f + n && r < f && n < f
    ensures q == m && r == n
  {
    Distributed(q, m, f);
    Apart(q - m, f);
  }

  /** The parts of an amount are its only ones. */
  lemma Separated(q: nat, r: nat, scale: nat)
    requires r < Power10(scale)
    ensures Major(q * Power10(scale) + r, scale) == q && Minor(q * Power10(scale) + r, scale) == r
  {
    hide *;
    var v := q * Power10(scale) + r;
    Recombined(v, scale);
    PartsUnique(q, r, Major(v, scale), Minor(v, scale), Power10(scale));
  }

  /** Every safe amount is read back from its text, at every scale of at least one digit. */
  lemma ParseFormat(value: nat, scale: nat)
    requires value <= MAX_SAFE && scale >= 1
    ensures Format(value, scale).Some? && Parse(Format(value, scale).value, scale) == Some(value)
  {
    var f := Power10(scale);
    var whole, fraction := Digits(Major(value, scale)), PadStart(Digits(Minor(value, scale)), scale);
    DigitsCanonical(Major(value, scale));
    Recombined(value, scale);
    Padded(Minor(value, scale), scale);
    hide Major, Minor, Digits, PadStart;
    Parts(whole, fraction);
    PointAt(whole, fraction);
    assert PadEnd(fraction, scale) == fraction;
    hide Value, Power10, Whole, Fraction, PadEnd;
  }

  /** A fraction of full length is printed as itself. */
  lemma FractionPrinted(fraction: string, scale: nat)
    requires AllDigits(fraction) && |fraction| == scale >= 1
    ensures Value(fraction) < Power10(scale) && PadStart(Digits(Value(fraction)), scale) == fraction
  {
    hide *;
    ValueBound(fraction);
    Padded(Value(fraction), scale);
    SameValue(PadStart(Digits(Value(fraction)), scale), fraction);
  }

  /** What was read, in its two parts. */
  lemma ParseForm(s: string, scale: nat)
    requires scale >= 1 && Parse(s, scale).Some?
    ensures Canonical(Whole(s)) && AllDigits(Whole(s)) && AllDigits(PadEnd(Fraction(s), scale)) && |PadEnd(Fraction(s), scale)| == scale
    ensures Parse(s, scale).value == Value(Whole(s)) * Power10(scale) + Value(PadEnd(Fraction(s), scale)) <= MAX_SAFE
  {
    PadEndDigits(Fraction(s), scale);
    hide Value, Power10, PadEnd, Whole, AllDigits;
  }

  lemma ReadParts(s: string, scale: nat)
    requires scale >= 1 && Parse(s, scale).Some?
    ensures AllDigits(Whole(s)) && AllDigits(PadEnd(Fraction(s), scale)) && 0 <= Parse(s, scale).value <= MAX_SAFE
    ensures Major(Parse(s, scale).value, scale) == Value(Whole(s)) && Minor(Parse(s, scale).value, scale) == Value(PadEnd(Fraction(s), scale))
    ensures Digits(Value(Whole(s))) == Whole(s)
    ensures PadStart(Digits(Value(PadEnd(Fraction(s), scale))), scale) == PadEnd(Fraction(s), scale)
  {
    hide *;
    ParseForm(s, scale);
    CanonicalDigits(Whole(s));
    FractionPrinted(PadEnd(Fraction(s), scale), scale);
    Separated(Value(Whole(s)), Value(PadEnd(Fraction(s), scale)), scale);
  }

  /** Every text that is read is printed as itself, with its fraction filled up with zeros. */
  lemma FormatParse(s: string, scale: nat)
    requires scale >= 1 && Parse(s, scale).Some?
    ensures Format(Parse(s, scale).value, scale) == Some(Filled(s, scale))
  {
    hide Value, Digits, Power10, PadStart, PadEnd, Whole, Fraction, Parse, Major, Minor;
    ReadParts(s, scale);
  }

  /** Two texts are read as the same amount exactly when they differ in trailing zeros of the fraction alone. */
  lemma ParseInjective(s: string, t: string, scale: nat)
    requires scale >= 1 && Parse(s, scale).Some? && Parse(t, scale).Some?
    ensures Parse(s, scale) == Parse(t, scale) <==> Filled(s, scale) == Filled(t, scale)
  {
    FormatParse(s, scale);
    FormatParse(t, scale);
    PadEndDigits(Fraction(s), scale);
    PadEndDigits(Fraction(t), scale);
    Parts(Whole(s), PadEnd(Fraction(s), scale));
    Parts(Whole(t), PadEnd(Fraction(t), scale));
    if Filled(s, scale) == Filled(t, scale) {
      Reread(s, t, scale);
    }
    hide Parse, Format;
  }

  /** Texts that fill up to the same text are read the same. */
  lemma Reread(s: string, t: string, scale: nat)
    requires Parse(s, scale).Some? && Parse(t, scale).Some? && Whole(s) == Whole(t)
    requires PadEnd(Fraction(s), scale) == PadEnd(Fraction(t), scale)
    ensures Parse(s, scale) == Parse(t, scale)
  {
  }

  // ---------- which texts are read ----------

  /** A whole number without leading zeros, or one with a point and one to `scale` digits after it. */
  ghost predicate Decimal(s: string, scale: nat) {
    || Canonical(s)
    || exists whole, fraction | Canonical(whole) && AllDigits(fraction) :: 1 <= |fraction| <= scale && s == whole + "." + fraction
  }

  /** The point of a text that begins with digits and goes on with a point, or ends. */
  lemma {:induction false} PointAfter(whole: string, rest: string)
    requires AllDigits(whole) && (rest == [] || rest[0] == '.')
    ensures Point(whole + rest) == |whole|
  {
    if whole == [] {
      assert whole + rest == rest;
    } else {
      assert (whole + rest)[0] == whole[0] && (whole + rest)[1..] == whole[1..] + rest;
      PointAfter(whole[1..], rest);
    }
  }

  lemma Regroup(v: nat, p: nat)
    ensures 10 * (v * p) == v * (10 * p)
  {
  }

  lemma {:induction false} ValueOfFilled(s: string, n: nat)
    requires AllDigits(s) && AllDigits(s + Zeros(n))
    ensures Value(s + Zeros(n)) == Value(s) * Power10(n)
  {
    if n == 0 {
      assert s + Zeros(n) == s;
    } else {
      var front := s + Zeros(n - 1);
      assert s + Zeros(n) == front + ['0'];
      ValueOfFilled(s, n - 1);
      ValueStep(front, '0');
      Regroup(Value(s), Power10(n - 1));
      PowerStep(n);
      hide Value, Power10;
    }
  }

  lemma PowerStep(n: nat)
    requires n > 0
    ensures Power10(n) == 10 * Power10(n - 1)
  {
  }

  lemma NothingFilled(n: nat)
    ensures Value("") == 0 && PadEnd("", n) == Zeros(n) && Value(Zeros(n)) == 0
  {
    assert "" + Zeros(n) == Zeros(n);
    ValueOfFilled("", n);
  }

  lemma ParseOf(s: string, scale: nat, whole: string, filled: string)
    requires Matches(s, scale) && Whole(s) == whole && PadEnd(Fraction(s), scale) == filled && AllDigits(whole) && AllDigits(filled)
    ensures var minor := Value(whole) * Power10(scale) + Value(filled);
            Parse(s, scale) == if minor <= MAX_SAFE then Some(minor) else None
  {
    hide Value, Power10, Matches, Whole, Fraction, PadEnd, AllDigits;
  }

  /** A whole number is read as so many major units. */
  lemma ReadWhole(s: string, scale: nat)
    requires Canonical(s)
    ensures Parse(s, scale) == if Value(s) * Power10(scale) <= MAX_SAFE then Some(Value(s) * Power10(scale)) else None
  {
    PointAfter(s, []);
    assert s + [] == s && s[..|s|] == s;
    NothingFilled(scale);
    ParseOf(s, scale, s, Zeros(scale));
    hide Power10, Value, Parse, Point;
  }

  lemma PointedParts(whole: string, fraction: string)
    requires AllDigits(whole)
    ensures Whole(whole + "." + fraction) == whole && Fraction(whole + "." + fraction) == fraction
  {
    var s := whole + "." + fraction;
    assert s == whole + ("." + fraction);
    PointAfter(whole, "." + fraction);
    assert s[..|whole|] == whole && s[|whole| + 1..] == fraction;
    hide Point, AllDigits;
  }

  lemma FilledUp(fraction: string, scale: nat)
    requires AllDigits(fraction) && |fraction| <= scale
    ensures AllDigits(PadEnd(fraction, scale)) && Value(PadEnd(fraction, scale)) == Value(fraction) * Power10(scale - |fraction|)
  {
    assert PadEnd(fraction, scale) == fraction + Zeros(scale - |fraction|);
    ValueOfFilled(fraction, scale - |fraction|);
    hide Value, Power10;
  }

  lemma PointedMatches(s: string, whole: string, fraction: string, scale: nat)
    requires Whole(s) == whole && Fraction(s) == fraction && Canonical(whole) && AllDigits(fraction) && 1 <= |fraction| <= scale
    ensures Matches(s, scale) && AllDigits(whole)
  {
    hide Whole, Fraction, Point, AllDigits;
  }

  /** A number with a fraction is read as its major units and the fraction's share of one. */
  lemma ReadFraction(whole: string, fraction: string, scale: nat)
    requires Canonical(whole) && AllDigits(fraction) && 1 <= |fraction| <= scale
    ensures var minor := Value(whole) * Power10(scale) + Value(fraction) * Power10(scale - |fraction|);
            Parse(whole + "." + fraction, scale) == if minor <= MAX_SAFE then Some(minor) else None
  {
    var s := whole + "." + fraction;
    PointedParts(whole, fraction);
    PointedMatches(s, whole, fraction, scale);
    FilledUp(fraction, scale);
    ParseOf(s, scale, whole, PadEnd(fraction, scale));
    hide Power10, Value, Parse, Point, Whole, Fraction, PadEnd, Matches, AllDigits;
  }

  /** No other text is read. */
  lemma ReadOnly(s: string, scale: nat)
    ensures Parse(s, scale).Some? ==> Decimal(s, scale)
  {
    if Matches(s, scale) {
      var whole, fraction := Whole(s), Fraction(s);
      if Point(s) < |s| {
        assert s == whole + "." + fraction;
        assert Canonical(whole) && AllDigits(fraction);
      } else {
        assert whole == s;
      }
    }
    hide Point, Value, Power10;
  }
}
