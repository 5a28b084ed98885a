/** Range-checked conversion of floats to integers, and of integers to floats with rounding to nearest, ties to even
    (section 4.3.1 of IEEE 754-2008). */
module Conversions {
  import Values
  import Machine

  datatype F64 = NaN | PosInf | NegInf | Fin(r: real)

  // ----- powers of two -----

  function Pow2(k: nat): (p: nat)
    ensures p > 0
  {
    if k == 0 then 1 else 2 * Pow2(k - 1)
  }

  const P53: nat := 0x20_0000_0000_0000
  const P63: nat := 0x8000_0000_0000_0000
  const P64: nat := 0x1_0000_0000_0000_0000

  lemma {:induction false} Pow2Split(a: nat, b: nat)
    ensures Pow2(a + b) == Pow2(a) * Pow2(b)
  {
    if b != 0 {
      Pow2Split(a, b - 1);
      assert Pow2(a + b) == 2 * (Pow2(a) * Pow2(b - 1)) == Pow2(a) * (2 * Pow2(b - 1));
    }
  }

  lemma Constants()
    ensures Pow2(53) == P53 && Pow2(63) == P63 && Pow2(64) == P64 && Pow2(52) == 0x10_0000_0000_0000
  {
    assert Pow2(10) == 1024;
    Pow2Split(10, 10);
    Pow2Split(20, 20);
    Pow2Split(40, 10);
    assert Pow2(50) == 0x4_0000_0000_0000;
    assert Pow2(2) == 4 && Pow2(3) == 8;
    Pow2Split(50, 2);
    Pow2Split(50, 3);
    Pow2Split(53, 10);
  }

  // ----- integers to floats -----

  /** The distance between neighbouring floats at `n`, for integers of 53 bits and more. */
  function Ulp(n: nat): (u: nat)
    ensures u > 0
  {
    if n < P53 then 1 else 2 * Ulp(n / 2)
  }

  /** The nearest multiple of `u`; of two, the even one. */
  function RoundAt(n: nat, u: nat): nat
    requires u > 0
  {
    var q, r := n / u, n % u;
    if 2 * r < u || (2 * r == u && q % 2 == 0) then q * u else (q + 1) * u
  }

  function RoundNat(n: nat): nat {
    RoundAt(n, Ulp(n))
  }

  function Round(n: int): int {
    if n >= 0 then RoundNat(n) else 0 - RoundNat(-n)
  }

  /** `uitofp` and `sitofp`, and the same conversions on constants. */
  function ToFloat(n: int): F64 {
    Fin(Round(n) as real)
  }

  function Scaled(a: nat, j: nat): nat {
    a * Pow2(j)
  }

  /** The non-negative integers that a 53-bit significand can hold. */
  ghost predicate Representable(x: nat) {
    exists a: nat, j: nat :: a < P53 && x == Scaled(a, j)
  }

  lemma {:induction false} UlpIs(n: nat, k: nat)
    requires Pow2(52 + k) <= n < Pow2(53 + k)
    ensures Ulp(n) == Pow2(k)
    decreases k
  {
    Constants();
    if k > 0 {
      Pow2Split(53, k - 1);
      assert Pow2(52 + k) >= Pow2(53);
      UlpIs(n / 2, k - 1);
    }
  }

  /** Every integer beyond 53 bits has a leading bit. */
  lemma {:induction false} LeadingBit(n: nat) returns (k: nat)
    requires n >= P53
    ensures k > 0 && Pow2(52 + k) <= n < Pow2(53 + k)
  {
    Constants();
    if n < Pow2(54) {
      k := 1;
    } else {
      assert Pow2(54) == 2 * P53;
      var j := LeadingBit(n / 2);
      k := j + 1;
    }
  }

  lemma Quotient(n: nat, q: nat, u: nat, r: nat)
    requires u > 0 && n == q * u + r && r < u
    ensures n / u == q && n % u == r
  {
    var q', r' := n / u, n % u;
    Parts(n, u);
    Next(q', u);
    Next(q, u);
    if q' < q {
      Mono(u, q' + 1, q);
    } else if q < q' {
      Mono(u, q + 1, q');
    }
  }

  lemma Next(q: nat, u: nat)
    ensures (q + 1) * u == q * u + u && u * (q + 1) == q * u + u && u * q == q * u
  {
  }

  lemma Parts(n: nat, u: nat)
    requires u > 0
    ensures n == (n / u) * u + n % u
  {
  }

  lemma Multiple(q: nat, u: nat)
    requires u > 0
    ensures (q * u) % u == 0 && (q * u) / u == q
  {
    Quotient(q * u, q, u, 0);
  }

  /** Rounding moves a number by at most half the distance between floats, to a multiple of that distance. */
  lemma RoundNear(n: nat)
    ensures 2 * RoundNat(n) <= 2 * n + Ulp(n) && 2 * n <= 2 * RoundNat(n) + Ulp(n)
    ensures RoundNat(n) % Ulp(n) == 0
  {
    hide RoundAt, Ulp;
    NearStep(n, Ulp(n));
  }

  lemma NearStep(n: nat, u: nat)
    requires u > 0
    ensures 2 * RoundAt(n, u) <= 2 * n + u && 2 * n <= 2 * RoundAt(n, u) + u && RoundAt(n, u) % u == 0
  {
    var q, r := n / u, n % u;
    Parts(n, u);
    Next(q, u);
    Multiple(q, u);
    Multiple(q + 1, u);
    NearBounds(n, u, q * u, r, (q + 1) * u);
  }

  lemma NearBounds(n: nat, u: nat, m: nat, r: nat, m': nat)
    requires n == m + r && m' == m + u && r < u
    ensures 2 * r <= u ==> 2 * m <= 2 * n + u && 2 * n <= 2 * m + u
    ensures 2 * r >= u ==> 2 * m' <= 2 * n + u && 2 * n <= 2 * m' + u
  {
  }

  lemma {:induction false} Pow2Divides(i: nat, j: nat)
    requires i <= j
    ensures Pow2(j) % Pow2(i) == 0
  {
    Pow2Split(j - i, i);
    Multiple(Pow2(j - i), Pow2(i));
  }

  lemma {:induction false} Pow2Grows(i: nat, j: nat)
    requires i < j
    ensures 2 * Pow2(i) <= Pow2(j)
    decreases j
  {
    if i < j - 1 { Pow2Grows(i, j - 1); }
  }

  lemma TimesMultiple(a: nat, b: nat, u: nat)
    requires u > 0 && b % u == 0
    ensures (a * b) % u == 0
  {
    var c := b / u;
    assert b == c * u;
    assert a * b == (a * c) * u;
    Multiple(a * c, u);
  }

  /** Floats from `2^(52+k)` on are multiples of `2^k`. */
  lemma RepresentableMultiple(x: nat, k: nat)
    requires Representable(x) && x >= Pow2(52 + k)
    ensures x % Pow2(k) == 0
  {
    Constants();
    var a: nat, j: nat :| a < P53 && x == Scaled(a, j);
    if j < k {
      Pow2Grows(j, k);
      Pow2Split(52, k);
      assert Pow2(52) * Pow2(k) >= Pow2(52) * (2 * Pow2(j)) by { Mono(Pow2(52), 2 * Pow2(j), Pow2(k)); }
      assert Pow2(52) * (2 * Pow2(j)) == P53 * Pow2(j);
      Less(a, P53, Pow2(j));
    } else {
      Pow2Divides(k, j);
      TimesMultiple(a, Pow2(j), Pow2(k));
    }
  }

  lemma Mono(a: nat, b: nat, c: nat)
    requires b <= c
    ensures a * b <= a * c
  {
  }

  lemma Less(a: nat, b: nat, c: nat)
    requires a < b && c > 0
    ensures a * c < b * c
  {
  }

  function Dist(a: int, b: int): nat {
    if a >= b then a - b else b - a
  }

  /** Two multiples of `u` are equal or at least `u` apart. */
  lemma Apart(x: nat, y: nat, u: nat)
    requires u > 0 && x % u == 0 && y % u == 0 && x != y
    ensures Dist(x, y) >= u
  {
    Parts(x, u);
    Parts(y, u);
    if x / u < y / u {
      Mono(u, x / u + 1, y / u);
      Next(x / u, u);
      Next(y / u, u);
    } else {
      Mono(u, y / u + 1, x / u);
      Next(x / u, u);
      Next(y / u, u);
    }
  }

  /** Halfway between two multiples, the even one is taken. */
  lemma TieToEven(n: nat, u: nat)
    requires u > 0 && 2 * Dist(n, RoundAt(n, u)) == u
    ensures (RoundAt(n, u) / u) % 2 == 0
  {
    var q, r := n / u, n % u;
    Parts(n, u);
    Next(q, u);
    Multiple(q, u);
    Multiple(q + 1, u);
    HalfWay(n, u, q * u, r, (q + 1) * u);
    assert 2 * r == u;
  }

  lemma HalfWay(n: nat, u: nat, m: nat, r: nat, m': nat)
    requires u > 0 && n == m + r && m' == m + u && r < u
    ensures 2 * Dist(n, m) == u <==> 2 * r == u
    ensures 2 * Dist(n, m') == u <==> 2 * r == u
  {
  }

  /** A float is as near to `n` as any other, and of two that are equally near the one with the even significand. */
  lemma RoundIsNearest(n: nat, x: nat)
    requires Representable(x)
    ensures Dist(n, RoundNat(n)) <= Dist(n, x)
    ensures x != RoundNat(n) && Dist(n, RoundNat(n)) == Dist(n, x) ==> (RoundNat(n) / Ulp(n)) % 2 == 0
  {
    hide RoundAt;
    var u, y := Ulp(n), RoundNat(n);
    RoundNear(n);
    if n < P53 {
      SmallExact(n);
    } else {
      var k := LeadingBit(n);
      UlpIs(n, k);
      var p := Pow2(52 + k);
      Pow2Divides(k, 52 + k);
      if x >= p {
        RepresentableMultiple(x, k);
        if x != y {
          Apart(x, y, u);
          if Dist(n, y) == Dist(n, x) { TieToEven(n, u); }
        }
      } else if p != y {
        Apart(p, y, u);
      }
    }
  }

  lemma SmallExact(n: nat)
    requires n < P53
    ensures RoundNat(n) == n && Representable(n)
  {
    assert n / 1 == n && n % 1 == 0;
    assert Scaled(n, 0) == n;
  }

  /** The result of rounding is a float. */
  lemma RoundIsRepresentable(n: nat)
    ensures Representable(RoundNat(n))
  {
    hide RoundAt;
    if n < P53 {
      SmallExact(n);
    } else {
      Constants();
      var k := LeadingBit(n);
      UlpIs(n, k);
      RoundNear(n);
      var u, y := Pow2(k), RoundNat(n);
      var c := y / u;
      Parts(y, u);
      Pow2Split(53, k);
      assert y == Scaled(c, k);
      if c > P53 {
        Mono(u, P53 + 1, c);
        Next(P53, u);
      } else if c == P53 {
        assert Scaled(1, 53 + k) == y;
      }
    }
  }

  function Abs(n: int): nat {
    if n >= 0 then n else -n
  }

  /** The same for integers of either sign: the float is a nearest one, of two the one with the even significand. */
  lemma RoundIsNearestSigned(n: int, x: int)
    requires Representable(Abs(x))
    ensures Representable(Abs(Round(n)))
    ensures Dist(n, Round(n)) <= Dist(n, x)
    ensures x != Round(n) && Dist(n, Round(n)) == Dist(n, x) ==> (Abs(Round(n)) / Ulp(Abs(n))) % 2 == 0
  {
    hide RoundNat, Ulp, Representable;
    RoundIsRepresentable(Abs(n));
    ZeroRepresentable();
    RoundIsNearest(Abs(n), 0);
    if (n >= 0) == (x >= 0) || x == 0 { RoundIsNearest(Abs(n), Abs(x)); }
  }

  lemma ZeroRepresentable()
    ensures Representable(0)
  {
    assert Scaled(0, 0) == 0;
  }

  // ----- floats to integers -----

  predicate OLT(a: F64, b: F64) {
    match (a, b)
    case (NaN, _) => false
    case (_, NaN) => false
    case (Fin(x), Fin(y)) => x < y
    case (NegInf, _) => b != NegInf
    case (_, PosInf) => a != PosInf
    case _ => false
  }

  predicate OLE(a: F64, b: F64) {
    match (a, b)
    case (NaN, _) => false
    case (_, NaN) => false
    case (Fin(x), Fin(y)) => x <= y
    case (NegInf, _) => true
    case (_, PosInf) => true
    case _ => false
  }

  function TowardZero(r: real): int {
    if r >= 0.0 then r.Floor else 0 - (-r).Floor
  }

  function Width(logWidth: nat): nat {
    Pow2(logWidth)
  }

  /** The bounds of integers of `2^logWidth` bits: the 64-bit ones, shifted right. */
  function IntMin(signed: bool, logWidth: nat): int
    requires logWidth <= 6
  {
    WidthLimit(logWidth);
    if signed then -0x8000_0000_0000_0000 / Pow2(64 - Width(logWidth)) else 0
  }

  function IntMax(signed: bool, logWidth: nat): int
    requires logWidth <= 6
  {
    WidthLimit(logWidth);
    (if signed then P63 - 1 else P64 - 1) / Pow2(64 - Width(logWidth))
  }

  lemma WidthLimit(logWidth: nat)
    requires logWidth <= 6
    ensures 1 <= Width(logWidth) <= 64
  {
    assert Pow2(6) == 64;
    if logWidth < 6 { Pow2Grows(logWidth, 6); }
  }

  /** They are the bounds of the two's complement integers of that width. */
  lemma BoundsAre(signed: bool, logWidth: nat)
    requires logWidth <= 6
    ensures 1 <= Width(logWidth) <= 64
    ensures IntMin(signed, logWidth) == if signed then 0 - (Pow2(Width(logWidth) - 1)) else 0
    ensures IntMax(signed, logWidth) == Pow2(if signed then Width(logWidth) - 1 else Width(logWidth)) - 1
  {
    hide Pow2, Width;
    WidthLimit(logWidth);
    Constants();
    var k := 64 - Width(logWidth);
    Shifted(if signed then 63 else 64, k);
    ShiftedDown(k);
  }

  lemma Shifted(b: nat, k: nat)
    requires k <= b
    ensures (Pow2(b) - 1) / Pow2(k) == Pow2(b - k) - 1
  {
    hide Pow2;
    Pow2Split(b - k, k);
    Next(Pow2(b - k) - 1, Pow2(k));
    Quotient(Pow2(b) - 1, Pow2(b - k) - 1, Pow2(k), Pow2(k) - 1);
  }

  lemma ShiftedDown(k: nat)
    requires k <= 63
    ensures -0x8000_0000_0000_0000 / Pow2(k) == 0 - (Pow2(63 - k))
  {
    hide Pow2;
    Constants();
    Pow2Split(63 - k, k);
    NegQuotient(Pow2(63 - k), Pow2(k));
  }

  lemma NegQuotient(q: nat, u: nat)
    requires u > 0
    ensures (0 - (q * u)) / u == 0 - q
  {
    var d, r := (0 - (q * u)) / u, (0 - (q * u)) % u;
    assert 0 - (q * u) == d * u + r;
    Distribute(d, q, u);
    SmallProduct(d + q, u, r);
  }

  lemma Distribute(d: int, q: int, u: int)
    ensures (d + q) * u == d * u + q * u
  {
  }

  lemma SmallProduct(e: int, u: nat, r: nat)
    requires r < u && e * u == 0 - r
    ensures e == 0
  {
    if e > 0 {
      Mono(u, 1, e);
    } else if e < 0 {
      Mono(u, 1, -e);
    }
  }

  predicate Fits(signed: bool, logWidth: nat, t: int)
    requires logWidth <= 6
  {
    IntMin(signed, logWidth) <= t <= IntMax(signed, logWidth)
  }

  datatype Poisonable = Poison | Defined(value: int)

  /** `fptosi` and `fptoui`: poison when the truncated value does not fit. */
  function FloatToInt(signed: bool, logWidth: nat, x: F64): Poisonable
    requires logWidth <= 6
  {
    if x.Fin? && Fits(signed, logWidth, TowardZero(x.r)) then Defined(TowardZero(x.r)) else Poison
  }

  /** The sum the truncation op returns: the error variant, or the integer. */
  datatype Truncated = Failure | Success(value: Poisonable)

  /** The conversion is made in any case; the comparisons with the bounds, as floats, select what is returned. */
  function BuildTrunc(signed: bool, logWidth: nat, x: F64): Truncated
    requires logWidth <= 6
  {
    var withinUpper := OLT(x, ToFloat(IntMax(signed, logWidth)));
    var withinLower := OLE(ToFloat(IntMin(signed, logWidth)), x);
    var truncated := FloatToInt(signed, logWidth, x);
    if withinUpper && withinLower then Success(truncated) else Failure
  }

  // ----- the bounds as floats -----

  lemma SmallWidth(logWidth: nat)
    requires logWidth < 6
    ensures 1 <= Width(logWidth) <= 32
  {
    assert Pow2(6) == 64;
    Pow2Grows(logWidth, 6);
  }

  lemma SmallBounds(signed: bool, logWidth: nat)
    requires logWidth < 6
    ensures 0 <= IntMax(signed, logWidth) < P53 && 0 <= -IntMin(signed, logWidth) < P53
  {
    hide Pow2, Width, IntMin, IntMax;
    SmallWidth(logWidth);
    BoundsAre(signed, logWidth);
    Constants();
    Pow2Order(Width(logWidth), 53);
    Pow2Order(Width(logWidth) - 1, 53);
  }

  lemma RoundPow2Less1(k: nat)
    requires 53 < k <= 64
    ensures RoundNat(Pow2(k) - 1) == Pow2(k)
  {
    hide RoundAt, Pow2, Ulp;
    var n, j := Pow2(k) - 1, k - 53;
    Constants();
    Half(k);
    UlpIs(n, j);
    Half(j);
    Pow2Split(53, j);
    LastOfBinade(n, Pow2(j), P53);
  }

  lemma LastOfBinade(n: nat, u: nat, m: nat)
    requires u >= 2 && m >= 1 && n == m * u - 1 && m % 2 == 0
    ensures RoundAt(n, u) == m * u
  {
    Next(m - 1, u);
    Quotient(n, m - 1, u, u - 1);
  }

  /** At width 64 the largest integer rounds up to a power of two; every other bound is a float. */
  lemma FloatBounds(signed: bool, logWidth: nat)
    requires logWidth <= 6
    ensures Round(IntMin(signed, logWidth)) == IntMin(signed, logWidth)
    ensures Round(IntMax(signed, logWidth)) == IntMax(signed, logWidth) + if logWidth == 6 then 1 else 0
  {
    hide RoundAt, Ulp, IntMin, IntMax;
    BoundsAre(signed, logWidth);
    if logWidth < 6 {
      SmallBounds(signed, logWidth);
      SmallExact(IntMax(signed, logWidth));
      SmallExact(-IntMin(signed, logWidth));
    } else {
      Constants();
      assert Width(6) == 64;
      RoundPow2Less1(if signed then 63 else 64);
      SmallExact(0);
      PowerExact(63);
    }
  }

  lemma PowerExact(k: nat)
    requires 53 <= k <= 64
    ensures RoundNat(Pow2(k)) == Pow2(k)
  {
    hide RoundAt, Pow2, Ulp;
    var j := k - 52;
    Half(k + 1);
    UlpIs(Pow2(k), j);
    Pow2Split(52, j);
    ExactMultiple(Pow2(52), Pow2(j));
  }

  lemma ExactMultiple(q: nat, u: nat)
    requires u > 0
    ensures RoundAt(q * u, u) == q * u
  {
    Multiple(q, u);
  }

  // ----- what the check guarantees -----

  lemma FloorLess(r: real, n: int)
    ensures r < n as real ==> r.Floor < n
    ensures n as real <= r ==> n <= r.Floor
  {
  }

  /** The op succeeds exactly on the finite floats whose truncation fits, that are not below the smallest integer,
      and, at widths below 64, are below the largest. */
  lemma TruncSucceedsIff(signed: bool, logWidth: nat, x: F64)
    requires logWidth <= 6
    ensures BuildTrunc(signed, logWidth, x).Success? <==>
              && x.Fin? && Fits(signed, logWidth, TowardZero(x.r)) && IntMin(signed, logWidth) as real <= x.r
              && (logWidth < 6 ==> x.r < IntMax(signed, logWidth) as real)
    ensures BuildTrunc(signed, logWidth, x).Success? <==>
              && x.Fin? && IntMin(signed, logWidth) as real <= x.r
              && x.r < IntMax(signed, logWidth) as real + (if logWidth == 6 then 1.0 else 0.0)
  {
    hide Pow2, RoundNat, Round, IntMin, IntMax;
    FloatBounds(signed, logWidth);
    if x.Fin? {
      var lo, hi := IntMin(signed, logWidth), IntMax(signed, logWidth);
      FloorLess(x.r, hi);
      FloorLess(x.r, hi + 1);
      FloorLess(x.r, lo);
      FloorLess(-x.r, -lo);
      FloorLess(-x.r, -lo + 1);
      SignOfBounds(signed, logWidth);
    }
  }

  lemma SignOfBounds(signed: bool, logWidth: nat)
    requires logWidth <= 6
    ensures IntMin(signed, logWidth) <= 0 <= IntMax(signed, logWidth)
  {
    hide IntMin, IntMax;
    BoundsAre(signed, logWidth);
  }

  /** Truncation drops the fraction: the result is the nearest integer on the side of zero. */
  lemma TowardZeroIs(r: real)
    ensures r >= 0.0 ==> 0 <= TowardZero(r) && TowardZero(r) as real <= r < TowardZero(r) as real + 1.0
    ensures r <= 0.0 ==> TowardZero(r) <= 0 && TowardZero(r) as real - 1.0 < r <= TowardZero(r) as real
  {
  }

  /** A successful truncation is never poison: it is the value truncated toward zero. */
  lemma TruncNeverPoison(signed: bool, logWidth: nat, x: F64)
    requires logWidth <= 6 && BuildTrunc(signed, logWidth, x).Success?
    ensures x.Fin? && BuildTrunc(signed, logWidth, x) == Success(Defined(TowardZero(x.r)))
    ensures Fits(signed, logWidth, TowardZero(x.r))
    ensures var t := BuildTrunc(signed, logWidth, x).value.value;
      && (x.r >= 0.0 ==> 0 <= t && t as real <= x.r < t as real + 1.0)
      && (x.r <= 0.0 ==> t <= 0 && t as real - 1.0 < x.r <= t as real)
  {
    hide Pow2, RoundNat, Round, IntMin, IntMax;
    TruncSucceedsIff(signed, logWidth, x);
    TowardZeroIs(x.r);
  }

  /** Not every float whose truncation fits is accepted: 127.0 is refused at 8 signed bits, -0.5 without sign. */
  lemma TruncRefuses()
    ensures Fits(true, 3, TowardZero(127.0)) && BuildTrunc(true, 3, Fin(127.0)) == Failure
    ensures Fits(false, 3, TowardZero(-0.5)) && BuildTrunc(false, 3, Fin(-0.5)) == Failure
  {
    hide IntMin, IntMax;
    assert Width(3) == 8 && Pow2(7) == 128 && Pow2(8) == 256;
    BoundsAre(true, 3);
    BoundsAre(false, 3);
    TruncSucceedsIff(true, 3, Fin(127.0));
    TruncSucceedsIff(false, 3, Fin(-0.5));
  }

  // ----- there and back -----

  function RoundTrip(signed: bool, n: int): Truncated {
    BuildTrunc(signed, 6, ToFloat(n))
  }

  /** 64-bit integers that come back, and how far off they are. */
  lemma RoundTripUnsigned(n: nat)
    requires n < P64
    ensures RoundTrip(false, n) == Failure <==> n >= P64 - 0x400
    ensures n < P64 - 0x400 ==> RoundTrip(false, n) == Success(Defined(RoundNat(n))) && Dist(n, RoundNat(n)) <= 0x400
    ensures n <= P53 ==> RoundTrip(false, n) == Success(Defined(n))
  {
    hide RoundAt, Pow2, Ulp, RoundNat, IntMin, IntMax;
    Constants();
    Tenths();
    RoundBelow(n, 64);
    TruncOfInt(false, RoundNat(n));
    SmallOrPower(n);
    Bounds64();
  }

  lemma Bounds64()
    ensures IntMin(false, 6) == 0 && IntMax(false, 6) == P64 - 1
    ensures IntMin(true, 6) == -0x8000_0000_0000_0000 && IntMax(true, 6) == P63 - 1
  {
    hide IntMin, IntMax;
    Constants();
    assert Width(6) == 64;
    BoundsAre(false, 6);
    BoundsAre(true, 6);
  }

  lemma Tenths()
    ensures Pow2(10) == 0x400 && Pow2(9) == 0x200
  {
  }

  lemma RoundTripSigned(n: int)
    requires -0x8000_0000_0000_0000 <= n < 0x8000_0000_0000_0000
    ensures RoundTrip(true, n) == Failure <==> n >= P63 - 0x200
    ensures n < P63 - 0x200 ==> RoundTrip(true, n) == Success(Defined(Round(n))) && Dist(n, Round(n)) <= 0x200
    ensures Dist(n, 0) <= P53 ==> RoundTrip(true, n) == Success(Defined(n))
  {
    hide RoundAt, Pow2, Ulp, RoundNat, IntMin, IntMax;
    Constants();
    Tenths();
    TruncOfInt(true, Round(n));
    Bounds64();
    if n == -0x8000_0000_0000_0000 {
      PowerExact(63);
    } else {
      var m := if n >= 0 then n else -n;
      RoundBelow(m, 63);
      SmallOrPower(m);
    }
  }

  /** Exactly which of the accepted integers are off by the whole bound: those of full length that lie half way between
      two floats.  All others are off by less. */
  lemma RoundTripOffByBound(n: nat)
    requires n < P64
    ensures Dist(n, RoundNat(n)) == 0x400 <==> n >= P63 && n % 0x800 == 0x400
    ensures (exists m :: RoundTrip(false, n) == Success(Defined(m)) && Dist(n, m) < 0x400)
       <==> n < P64 - 0x400 && !(n >= P63 && n % 0x800 == 0x400)
  {
    hide RoundAt, Pow2, Ulp, RoundNat, IntMin, IntMax, BuildTrunc;
    Constants();
    Tenths();
    Half(11);
    Half(64);
    RoundTripUnsigned(n);
    OffByHalf(n, 64);
    if n < P64 - 0x400 && !(n >= P63 && n % 0x800 == 0x400) {
      assert RoundTrip(false, n) == Success(Defined(RoundNat(n))) && Dist(n, RoundNat(n)) < 0x400;
    }
  }

  /** The same for signed integers: of them, none is off by `2^10`. */
  lemma RoundTripSignedOffByBound(n: int)
    requires -0x8000_0000_0000_0000 <= n < P63 - 0x200
    ensures var m := if n >= 0 then n else -n;
      Dist(n, Round(n)) == 0x200 <==> m >= 0x4000_0000_0000_0000 && m % 0x400 == 0x200
  {
    hide RoundAt, Pow2, Ulp, RoundNat;
    var m: nat := if n >= 0 then n else -n;
    Constants();
    Tenths();
    Half(10);
    Half(63);
    if m == P63 { PowerExact(63); } else { OffByHalf(m, 63); }
  }

  /** Which numbers below `2^b` rounding moves as far as it ever does. */
  lemma OffByHalf(n: nat, b: nat)
    requires b >= 55 && n < Pow2(b)
    ensures Dist(n, RoundNat(n)) == Pow2(b - 54) <==> n >= Pow2(b - 1) && n % Pow2(b - 53) == Pow2(b - 54)
  {
    hide RoundAt, Pow2, Ulp;
    Half(b - 53);
    Half(b - 54);
    if n < Pow2(b - 1) {
      RoundNear(n);
      UlpBound(n, b - 1);
      Pow2Order(0, b - 54);
    } else {
      UlpIs(n, b - 53);
      OffByHalfIff(n, Ulp(n));
    }
  }

  lemma OffByHalfIff(n: nat, u: nat)
    requires u > 0
    ensures 2 * Dist(n, RoundAt(n, u)) == u <==> 2 * (n % u) == u
  {
    var q, r := n / u, n % u;
    Parts(n, u);
    Next(q, u);
    HalfWay(n, u, q * u, r, (q + 1) * u);
  }

  lemma SmallOrPower(n: nat)
    ensures n <= P53 ==> RoundNat(n) == n
  {
    Constants();
    if n < P53 { SmallExact(n); }
    if n == P53 { PowerExact(53); }
  }

  lemma TruncOfInt(signed: bool, m: int)
    ensures BuildTrunc(signed, 6, Fin(m as real)) == if Fits(signed, 6, m) then Success(Defined(m)) else Failure
  {
    hide Pow2, RoundNat, Round, IntMin, IntMax;
    TruncSucceedsIff(signed, 6, Fin(m as real));
    assert (m as real).Floor == m && ((-m) as real).Floor == -m;
    assert TowardZero(m as real) == m;
  }

  lemma {:induction false} Pow2Order(i: nat, j: nat)
    ensures Pow2(i) < Pow2(j) <==> i < j
  {
    if i < j { Pow2Grows(i, j); }
    if j < i { Pow2Grows(j, i); }
  }

  lemma UlpBound(n: nat, b: nat)
    requires b >= 54 && n < Pow2(b)
    ensures Ulp(n) <= Pow2(b - 53)
  {
    hide Ulp, Pow2;
    if n < P53 {
      UlpOne(n);
    } else {
      var k := LeadingBit(n);
      UlpIs(n, k);
      Pow2Order(52 + k, b);
      Pow2Order(b - 53, k);
    }
  }

  lemma UlpOne(n: nat)
    requires n < P53
    ensures Ulp(n) == 1
  {
  }

  lemma Half(k: nat)
    requires k > 0
    ensures Pow2(k) == 2 * Pow2(k - 1)
  {
  }

  /** How far rounding moves numbers below `2^b`, and which of them it moves to `2^b`. */
  lemma RoundBelow(n: nat, b: nat)
    requires b >= 54 && n < Pow2(b)
    ensures Dist(n, RoundNat(n)) <= Pow2(b - 54) && RoundNat(n) <= Pow2(b)
    ensures RoundNat(n) == Pow2(b) <==> n >= Pow2(b) - Pow2(b - 54)
  {
    hide RoundAt, RoundNat, Ulp, Pow2;
    RoundNear(n);
    UlpBound(n, b);
    Half(b - 53);
    Half(b);
    if n < Pow2(b - 1) {
      PowerRepresentable(b - 1);
      RoundIsNearest(n, Pow2(b - 1));
      Pow2Order(b - 54, b - 1);
    } else {
      UlpIs(n, b - 53);
      Pow2Divides(b - 53, b);
      if RoundNat(n) != Pow2(b) {
        Apart(RoundNat(n), Pow2(b), Ulp(n));
        if n >= Pow2(b) - Pow2(b - 54) { NoOddTie(n, b); }
      }
    }
  }

  lemma PowerRepresentable(k: nat)
    ensures Representable(Pow2(k))
  {
    assert Scaled(1, k) == Pow2(k);
  }

  /** The number half way between the last two floats goes up. */
  lemma NoOddTie(n: nat, b: nat)
    requires b >= 54 && n == Pow2(b) - Pow2(b - 54) && Ulp(n) == Pow2(b - 53)
    ensures RoundNat(n) != Pow2(b) - Pow2(b - 53)
  {
    hide RoundAt, Ulp, Pow2;
    Half(b - 53);
    if RoundNat(n) == Pow2(b) - Pow2(b - 53) {
      TieToEven(n, Ulp(n));
      Constants();
      Pow2Split(53, b - 53);
      Next(P53 - 1, Pow2(b - 53));
      Multiple(P53 - 1, Pow2(b - 53));
    }
  }

  // ----- bits and bools -----

  const BoolRows := [Values.Row([]), Values.Row([])]

  function IToBool(i: nat): Values.LVal {
    Values.SumStruct(BoolRows, if i == 1 then 1 else 0, [])
  }

  /** The tag, read from its field, says which bit. */
  function IFromBool(v: Values.LVal): Values.Option<nat> {
    match Machine.ExtractValue(v, 0)
    case Some(LInt(tag)) => Values.Some(if tag == 1 then 1 else 0)
    case _ => Values.None
  }

  /** Bit 1 is true, which is variant 1; the two conversions are inverse, on bits and on encoded bools. */
  lemma BoolRoundTrip(i: nat, b: Values.Val)
    requires i <= 1 && b.SumV? && b.rows == BoolRows && b.tag < 2 && b.vals == []
    ensures IToBool(i) == Values.Enc(Values.SumV(i, [], BoolRows))
    ensures IFromBool(Values.Enc(b)) == Values.Some(b.tag)
    ensures IFromBool(IToBool(i)) == Values.Some(i)
    ensures IFromBool(Values.Enc(b)).Some? && IToBool(IFromBool(Values.Enc(b)).value) == Values.Enc(b)
  {
    assert Values.Enc(b) == Values.SumStruct(BoolRows, b.tag, []);
  }
}
