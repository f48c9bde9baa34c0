/** Exact comparison of decimal strings of any length. */
module Decimals {
  import opened Base

  predicate Digit(c: char) { '0' <= c <= '9' }

  predicate AllDigits(s: string) {
    forall i :: 0 <= i < |s| ==> Digit(s[i])
  }

  /** Where the first point is, or the end. */
  function Dot(s: string): (i: nat)
    ensures i <= |s| && (i < |s| ==> s[i] == '.')
    ensures forall k :: 0 <= k < i ==> s[k] != '.'
  {
    if s == [] || s[0] == '.' then 0 else 1 + Dot(s[1..])
  }

  function IntegerPart(u: string): string { u[..Dot(u)] }

  function FractionPart(u: string): string {
    if Dot(u) < |u| then u[Dot(u) + 1..] else ""
  }

  function Unsigned(s: string): string {
    if s != [] && s[0] == '-' then s[1..] else s
  }

  predicate Negative(s: string) {
    s != [] && s[0] == '-'
  }

  /** DECIMAL_PATTERN without its sign. */
  predicate UnsignedDecimal(u: string) {
    && IntegerPart(u) != "" && AllDigits(IntegerPart(u))
    && (u[0] == '0' ==> |IntegerPart(u)| == 1)
    && (Dot(u) < |u| ==> FractionPart(u) != "" && AllDigits(FractionPart(u)))
  }

  predicate IsDecimal(s: string) {
    UnsignedDecimal(Unsigned(s))
  }

  /** `replace(/^0+(?=[0-9])/, "")` on a run of digits. */
  function StripLeading(s: string): string {
    if |s| > 1 && s[0] == '0' && Digit(s[1]) then StripLeading(s[1..]) else s
  }

  /** `replace(/0+$/, "")`. */
  function StripTrailing(s: string): string {
    if s != [] && s[|s| - 1] == '0' then StripTrailing(s[..|s| - 1]) else s
  }

  function Zeros(n: nat): string {
    seq(n, i => '0')
  }

  function PadEnd(s: string, n: nat): string {
    if |s| < n then s + Zeros(n - |s|) else s
  }

  /** JavaScript's `<` on strings. */
  predicate Less(a: string, b: string) {
    if a == [] then b != []
    else if b == [] then false
    else a[0] < b[0] || (a[0] == b[0] && Less(a[1..], b[1..]))
  }

  function CompareUnsignedDigits(left: string, right: string): int {
    var first, second := StripLeading(left), StripLeading(right);
    if |first| != |second| then if |first| < |second| then -1 else 1
    else if first == second then 0 else if Less(first, second) then -1 else 1
  }

  datatype Parsed = Parsed(sign: int, integer: string, fraction: string)

  function ParseExact(s: string): Result<Parsed> {
    if !IsDecimal(s) then Err("notification decimal is invalid")
    else
      var integer, fraction := StripLeading(IntegerPart(Unsigned(s))), StripTrailing(FractionPart(Unsigned(s)));
      var zero := integer == "0" && fraction == "";
      Ok(Parsed(if zero then 0 else if Negative(s) then -1 else 1, integer, fraction))
  }

  function Larger(a: nat, b: nat): nat {
    if a < b then b else a
  }

  function CompareParsed(first: Parsed, second: Parsed): int {
    if first.sign != second.sign then if first.sign < second.sign then -1 else 1
    else if first.sign == 0 then 0
    else
      var scale := Larger(|first.fraction|, |second.fraction|);
      var magnitude := CompareUnsignedDigits(first.integer + PadEnd(first.fraction, scale), second.integer + PadEnd(second.fraction, scale));
      if first.sign == 1 then magnitude else -magnitude
  }

  function CompareExact(left: string, right: string): Result<int> {
    var first :- ParseExact(left);
    var second :- ParseExact(right);
    Ok(CompareParsed(first, second))
  }

  /* ---- the number a decimal denotes --------------------------------------------- */

  function Nat(s: string): nat
    requires AllDigits(s)
  {
    if s == [] then 0 else 10 * Nat(s[..|s| - 1]) + (s[|s| - 1] as int - '0' as int)
  }

  function Pow10(n: nat): (p: nat)
    ensures p >= 1
  {
    if n == 0 then 1 else 10 * Pow10(n - 1)
  }

  function Digits(u: string): (d: string)
    requires UnsignedDecimal(u)
    ensures AllDigits(d)
  {
    IntegerPart(u) + FractionPart(u)
  }

  function Magnitude(u: string): real
    requires UnsignedDecimal(u)
  {
    Nat(Digits(u)) as real / Pow10(|FractionPart(u)|) as real
  }

  function Value(s: string): real
    requires IsDecimal(s)
  {
    if Negative(s) then -Magnitude(Unsigned(s)) else Magnitude(Unsigned(s))
  }

  function Order(a: real, b: real): int {
    if a < b then -1 else if a == b then 0 else 1
  }

  /** CANONICAL_POSITIVE_DECIMAL_PATTERN. */
  predicate Canonical(s: string) {
    UnsignedDecimal(s) && (Dot(s) < |s| ==> s[|s| - 1] != '0')
  }
}

module DecimalTheorems {
  import opened Base
  import opened Decimals

  /* ---- digit strings -------------------------------------------------------------- */

  lemma {:induction false} NatConcat(a: string, b: string)
    requires AllDigits(a) && AllDigits(b)
    ensures AllDigits(a + b)
    ensures Nat(a + b) == Nat(a) * Pow10(|b|) + Nat(b)
    decreases |b|
  {
    if b == [] {
      assert a + b == a;
    } else {
      var init := b[..|b| - 1];
      NatConcat(a, init);
      assert (a + b)[..|a + b| - 1] == a + init;
      assert Nat(a + b) == 10 * Nat(a + init) + (b[|b| - 1] as int - '0' as int);
      MulTen(Nat(a), Pow10(|init|));
    }
  }

  lemma MulTen(a: nat, p: nat)
    ensures a * (10 * p) == 10 * (a * p)
  {
  }

  lemma {:induction false} NatZeros(n: nat)
    ensures AllDigits(Zeros(n)) && Nat(Zeros(n)) == 0
  {
    if n > 0 {
      NatZeros(n - 1);
      assert Zeros(n)[..n - 1] == Zeros(n - 1);
    }
  }

  lemma {:induction false} NatBound(s: string)
    requires AllDigits(s)
    ensures Nat(s) < Pow10(|s|)
  {
    if s != [] { NatBound(s[..|s| - 1]); }
  }

  lemma {:induction false} StripLeadingKeeps(s: string)
    requires AllDigits(s) && s != []
    ensures var t := StripLeading(s);
      t != [] && AllDigits(t) && Nat(t) == Nat(s) && (t[0] == '0' ==> |t| == 1)
  {
    if |s| > 1 && s[0] == '0' {
      StripLeadingKeeps(s[1..]);
      NatConcat(s[..1], s[1..]);
      assert s[..1] + s[1..] == s && s[..1][..0] == [];
      assert Nat(s[..1]) == 0;
    }
  }

  lemma {:induction false} StripTrailingKeeps(s: string)
    requires AllDigits(s)
    ensures var t := StripTrailing(s);
      && AllDigits(t) && |t| <= |s| && Nat(s) == Nat(t) * Pow10(|s| - |t|)
      && (t != [] ==> t[|t| - 1] != '0')
  {
    if s != [] && s[|s| - 1] == '0' {
      var init := s[..|s| - 1];
      StripTrailingKeeps(init);
      MulTen(Nat(StripTrailing(init)), Pow10(|init| - |StripTrailing(init)|));
    }
  }

  /** Without leading zeros, more digits is more. */
  lemma NatLowerBound(s: string)
    requires AllDigits(s) && s != [] && s[0] != '0'
    ensures Nat(s) >= Pow10(|s| - 1)
  {
    NatConcat(s[..1], s[1..]);
    assert s[..1] + s[1..] == s && s[..1][..0] == [];
    assert Nat(s[..1]) >= 1;
    assert Nat(s[..1]) * Pow10(|s| - 1) >= Pow10(|s| - 1) by { AtLeastOnce(Nat(s[..1]), Pow10(|s| - 1)); }
  }

  lemma AtLeastOnce(k: nat, p: nat)
    requires k >= 1
    ensures k * p >= p
  {
  }

  lemma {:induction false} PowGrows(m: nat, n: nat)
    requires m <= n
    ensures Pow10(m) <= Pow10(n)
  {
    if m < n { PowGrows(m, n - 1); }
  }

  lemma {:induction false} PowSum(m: nat, n: nat)
    ensures Pow10(m + n) == Pow10(m) * Pow10(n)
  {
    if n > 0 {
      PowSum(m, n - 1);
      MulTen(Pow10(m), Pow10(n - 1));
    }
  }

  lemma Longer(a: string, b: string)
    requires AllDigits(a) && AllDigits(b) && a != [] && |a| < |b| && b[0] != '0'
    ensures Nat(a) < Nat(b)
  {
    NatBound(a);
    NatLowerBound(b);
    PowGrows(|a|, |b| - 1);
  }

  /** At equal length the order of strings is the order of numbers. */
  lemma {:induction false} LessIsLess(a: string, b: string)
    requires AllDigits(a) && AllDigits(b) && |a| == |b|
    ensures Less(a, b) <==> Nat(a) < Nat(b)
    ensures a == b <==> Nat(a) == Nat(b)
  {
    if a != [] {
      var x, y := a[1..], b[1..];
      LessIsLess(x, y);
      FirstDigit(a);
      FirstDigit(b);
      NatBound(x);
      NatBound(y);
      var d, e := a[0] as int - '0' as int, b[0] as int - '0' as int;
      if d < e { Lexicographic(d, e, Pow10(|x|), Nat(x), Nat(y)); }
      if e < d { Lexicographic(e, d, Pow10(|x|), Nat(y), Nat(x)); }
      assert a == [a[0]] + x && b == [b[0]] + y;
    }
  }

  lemma FirstDigit(s: string)
    requires AllDigits(s) && s != []
    ensures Nat(s) == (s[0] as int - '0' as int) * Pow10(|s| - 1) + Nat(s[1..])
  {
    NatConcat(s[..1], s[1..]);
    assert s[..1] + s[1..] == s && s[..1][..0] == [];
  }

  lemma Lexicographic(d: int, e: int, p: nat, x: nat, y: nat)
    requires d < e && x < p
    ensures d * p + x < e * p + y
  {
    assert e * p >= (d + 1) * p by { AtLeastMore(d, e, p); }
    assert (d + 1) * p == d * p + p;
  }

  lemma AtLeastMore(d: int, e: int, p: nat)
    requires d < e
    ensures e * p >= (d + 1) * p
  {
  }

  function OrderOf(a: int, b: int): int {
    if a < b then -1 else if a == b then 0 else 1
  }

  lemma DigitsCompare(left: string, right: string)
    requires AllDigits(left) && AllDigits(right) && left != [] && right != []
    ensures CompareUnsignedDigits(left, right) == OrderOf(Nat(left), Nat(right))
  {
    StripLeadingKeeps(left);
    StripLeadingKeeps(right);
    var a, b := StripLeading(left), StripLeading(right);
    if |a| < |b| {
      Longer(a, b);
    } else if |b| < |a| {
      Longer(b, a);
    } else {
      LessIsLess(a, b);
    }
  }

  /* ---- fractions at one scale ------------------------------------------------------- */

  lemma DivideBy(x: real, y: real, d: real)
    requires d > 0.0
    ensures Order(x / d, y / d) == Order(x, y)
  {
    assert x == x / d * d && y == y / d * d;
    if x / d < y / d { assert (y / d - x / d) * d > 0.0; }
    if x / d > y / d { assert (x / d - y / d) * d > 0.0; }
  }

  lemma Rescaled(n: nat, p: nat, q: nat)
    requires p >= 1 && q >= 1
    ensures n as real / p as real == (n * q) as real / (p * q) as real
  {
    var r := n as real / p as real;
    assert r * p as real == n as real;
    assert (n * q) as real == n as real * q as real;
    assert (p * q) as real == p as real * q as real;
    assert p as real * q as real > 0.0 by { assert p * q >= 1; }
    assert r * (p as real * q as real) == n as real * q as real;
  }

  lemma TrimmedNat(integer: string, fraction: string)
    requires AllDigits(integer) && AllDigits(fraction) && integer != []
    ensures var i, f := StripLeading(integer), StripTrailing(fraction);
      && i != [] && AllDigits(i) && AllDigits(f) && AllDigits(i + f) && AllDigits(integer + fraction) && |f| <= |fraction|
      && Nat(integer + fraction) == Nat(i + f) * Pow10(|fraction| - |f|)
  {
    StripLeadingKeeps(integer);
    StripTrailingKeeps(fraction);
    var i, f := StripLeading(integer), StripTrailing(fraction);
    NatConcat(integer, fraction);
    NatConcat(i, f);
    PowSum(|f|, |fraction| - |f|);
    Distribute(Nat(integer), Pow10(|f|), Pow10(|fraction| - |f|), Nat(f));
  }

  lemma PaddedNat(i: string, f: string, scale: nat)
    requires AllDigits(i) && AllDigits(f) && |f| <= scale
    ensures AllDigits(i + PadEnd(f, scale)) && AllDigits(i + f)
    ensures Nat(i + PadEnd(f, scale)) == Nat(i + f) * Pow10(scale - |f|)
  {
    NatZeros(scale - |f|);
    NatConcat(i + f, Zeros(scale - |f|));
    assert i + PadEnd(f, scale) == (i + f) + Zeros(scale - |f|);
  }

  lemma SameFraction(x: nat, p: nat, q: nat, r: nat)
    requires p >= 1 && q >= 1 && r >= 1
    ensures (x * q) as real / (p * q) as real == (x * r) as real / (p * r) as real
  {
    Rescaled(x, p, q);
    Rescaled(x, p, r);
  }

  /** A parsed decimal at a scale that holds its fraction. */
  lemma ScaledValue(u: string, scale: nat)
    requires UnsignedDecimal(u)
    requires |StripTrailing(FractionPart(u))| <= scale
    ensures var i, f := StripLeading(IntegerPart(u)), StripTrailing(FractionPart(u));
      var d := i + PadEnd(f, scale);
      i != [] && AllDigits(i) && AllDigits(f) && AllDigits(d) && Magnitude(u) == Nat(d) as real / Pow10(scale) as real
  {
    TrimmedNat(IntegerPart(u), FractionPart(u));
    var i, f := StripLeading(IntegerPart(u)), StripTrailing(FractionPart(u));
    PaddedNat(i, f, scale);
    var m, n := |FractionPart(u)| - |f|, scale - |f|;
    PowSum(|f|, m);
    PowSum(|f|, n);
    SameFraction(Nat(i + f), Pow10(|f|), Pow10(m), Pow10(n));
  }

  lemma Distribute(a: nat, p: nat, q: nat, b: nat)
    ensures a * (p * q) + b * q == (a * p + b) * q
  {
  }

  /* ---- the main results ---------------------------------------------------------------- */

  lemma NatZeroDigits(i: string, f: string)
    requires AllDigits(i) && AllDigits(f) && i != [] && (i[0] == '0' ==> |i| == 1) && (f != [] ==> f[|f| - 1] != '0')
    ensures AllDigits(i + f) && (Nat(i + f) == 0 <==> i == "0" && f == "")
  {
    NatConcat(i, f);
    if i[0] != '0' {
      NatLowerBound(i);
      AtLeastOnce(Nat(i), Pow10(|f|));
    } else {
      assert i == "0" && i[..0] == [];
    }
  }

  lemma MagnitudeSign(u: string)
    requires UnsignedDecimal(u)
    ensures Magnitude(u) >= 0.0
    ensures Magnitude(u) == 0.0 <==> StripLeading(IntegerPart(u)) == "0" && StripTrailing(FractionPart(u)) == ""
  {
    var i, f := StripLeading(IntegerPart(u)), StripTrailing(FractionPart(u));
    StripLeadingKeeps(IntegerPart(u));
    StripTrailingKeeps(FractionPart(u));
    ScaledValue(u, |f|);
    assert PadEnd(f, |f|) == f;
    NatZeroDigits(i, f);
    DivideBy(Nat(i + f) as real, 0.0, Pow10(|f|) as real);
    assert 0.0 / Pow10(|f|) as real == 0.0;
  }

  /** The sign a parse reports is the sign of the value. */
  lemma ParsedSign(s: string)
    requires IsDecimal(s)
    ensures ParseExact(s).value.sign == Order(Value(s), 0.0)
  {
    MagnitudeSign(Unsigned(s));
  }

  lemma MagnitudesCompare(u: string, w: string)
    requires UnsignedDecimal(u) && UnsignedDecimal(w)
    ensures var f, g := StripTrailing(FractionPart(u)), StripTrailing(FractionPart(w));
      var scale := Larger(|f|, |g|);
      CompareUnsignedDigits(StripLeading(IntegerPart(u)) + PadEnd(f, scale), StripLeading(IntegerPart(w)) + PadEnd(g, scale))
        == Order(Magnitude(u), Magnitude(w))
  {
    var f, g := StripTrailing(FractionPart(u)), StripTrailing(FractionPart(w));
    var scale := Larger(|f|, |g|);
    ScaledValue(u, scale);
    ScaledValue(w, scale);
    var a, b := StripLeading(IntegerPart(u)) + PadEnd(f, scale), StripLeading(IntegerPart(w)) + PadEnd(g, scale);
    DigitsCompare(a, b);
    DivideBy(Nat(a) as real, Nat(b) as real, Pow10(scale) as real);
  }

  /** The comparison succeeds on decimals only, and is then the comparison of the numbers they denote. */
  lemma CompareIsOrder(left: string, right: string)
    ensures CompareExact(left, right).Ok? <==> IsDecimal(left) && IsDecimal(right)
    ensures CompareExact(left, right).Ok? ==> CompareExact(left, right).value == Order(Value(left), Value(right))
  {
    if IsDecimal(left) && IsDecimal(right) {
      ParsedSign(left);
      ParsedSign(right);
      MagnitudesCompare(Unsigned(left), Unsigned(right));
    }
  }

  /* ---- canonical decimals ----------------------------------------------------------------- */

  lemma CanonicalParts(s: string)
    requires Canonical(s)
    ensures IsDecimal(s) && Unsigned(s) == s && !Negative(s)
    ensures FractionPart(s) != "" ==> FractionPart(s)[|FractionPart(s)| - 1] != '0'
    ensures s == if FractionPart(s) == "" then IntegerPart(s) else IntegerPart(s) + "." + FractionPart(s)
    ensures StripLeading(IntegerPart(s)) == IntegerPart(s)
  {
    assert s[0] == IntegerPart(s)[0];
  }

  lemma {:induction false} NoTrailing(s: string)
    requires s != [] ==> s[|s| - 1] != '0'
    ensures StripTrailing(s) == s
  {
  }

  lemma PaddedLastDigit(i: string, f: string, scale: nat)
    requires AllDigits(i) && AllDigits(f) && |f| < scale
    ensures AllDigits(i + PadEnd(f, scale)) && Nat(i + PadEnd(f, scale)) % 10 == 0
  {
    NatZeros(scale - |f|);
    var d := i + PadEnd(f, scale);
    assert d[|d| - 1] == '0';
  }

  lemma LastDigit(i: string, f: string)
    requires AllDigits(i) && AllDigits(f) && f != [] && f[|f| - 1] != '0'
    ensures AllDigits(i + f) && Nat(i + f) % 10 != 0
  {
    var d := i + f;
    assert d[|d| - 1] == f[|f| - 1];
  }

  /** Canonical decimals of one value have fractions of one length. */
  lemma SameScale(a: string, b: string)
    requires Canonical(a) && Canonical(b) && Magnitude(a) == Magnitude(b)
    ensures |FractionPart(a)| == |FractionPart(b)|
    ensures Nat(Digits(a)) == Nat(Digits(b))
  {
    CanonicalParts(a);
    CanonicalParts(b);
    var i, j, f, g := IntegerPart(a), IntegerPart(b), FractionPart(a), FractionPart(b);
    NoTrailing(f);
    NoTrailing(g);
    var scale := Larger(|f|, |g|);
    ScaledValue(a, scale);
    ScaledValue(b, scale);
    var x, y := i + PadEnd(f, scale), j + PadEnd(g, scale);
    DivideBy(Nat(x) as real, Nat(y) as real, Pow10(scale) as real);
    assert Nat(x) == Nat(y);
    if |f| < |g| {
      PaddedLastDigit(i, f, scale);
      LastDigit(j, g);
    } else if |g| < |f| {
      PaddedLastDigit(j, g, scale);
      LastDigit(i, f);
    }
  }

  lemma SplitEqual(p: nat, a: nat, x: nat, b: nat, y: nat)
    requires x < p && y < p && a * p + x == b * p + y
    ensures a == b && x == y
  {
    if a < b { Lexicographic(a, b, p, x, y); }
    if b < a { Lexicographic(b, a, p, y, x); }
  }

  lemma SameNumber(a: string, b: string)
    requires AllDigits(a) && AllDigits(b) && a != [] && b != []
    requires (a[0] == '0' ==> |a| == 1) && (b[0] == '0' ==> |b| == 1) && Nat(a) == Nat(b)
    ensures a == b
  {
    if |a| < |b| {
      Longer(a, b);
    } else if |b| < |a| {
      Longer(b, a);
    } else {
      LessIsLess(a, b);
    }
  }

  /** On canonical positive decimals the comparison is 0 only for identical strings. */
  lemma CanonicalEqual(a: string, b: string)
    requires Canonical(a) && Canonical(b)
    ensures CompareExact(a, b) == Ok(0) <==> a == b
  {
    CanonicalParts(a);
    CanonicalParts(b);
    CompareIsOrder(a, b);
    if Value(a) == Value(b) {
      SameScale(a, b);
      var i, j, f, g := IntegerPart(a), IntegerPart(b), FractionPart(a), FractionPart(b);
      NatConcat(i, f);
      NatConcat(j, g);
      NatBound(f);
      NatBound(g);
      SplitEqual(Pow10(|f|), Nat(i), Nat(f), Nat(j), Nat(g));
      SameNumber(i, j);
      LessIsLess(f, g);
    }
  }

  /** A total preorder: total, antisymmetric up to value, transitive. */
  lemma ComparePreorder(a: string, b: string, c: string)
    requires IsDecimal(a) && IsDecimal(b) && IsDecimal(c)
    ensures CompareExact(a, b).value == -CompareExact(b, a).value
    ensures CompareExact(a, a) == Ok(0)
    ensures CompareExact(a, b).value <= 0 && CompareExact(b, c).value <= 0 ==> CompareExact(a, c).value <= 0
  {
    CompareIsOrder(a, b);
    CompareIsOrder(b, a);
    CompareIsOrder(a, a);
    CompareIsOrder(b, c);
    CompareIsOrder(a, c);
  }
}
