/** The trip of a JSON integer through Go's float64: json.Unmarshal into map[string]any rounds it to 53
    significant bits, json.MarshalIndent prints the shortest decimal that reads back as the same float. */
module Float53 {
  const TwoTo53: int := 0x20_0000_0000_0000

  ghost predicate IsPow2(u: nat)
    decreases u
  {
    u == 1 || (u > 1 && u % 2 == 0 && IsPow2(u / 2))
  }

  /** The spacing of floats around n: the least power of two u with n < 2^53 * u. */
  function Unit(n: nat, u: nat): (r: nat)
    requires u >= 1
    ensures r >= u && n < TwoTo53 * r
    ensures r == u || TwoTo53 * r <= 2 * n
    decreases n - u
  {
    if n < TwoTo53 * u then u else Unit(n, 2 * u)
  }

  function RoundNat(n: nat): nat {
    var u := Unit(n, 1);
    var q, r := n / u, n % u;
    if 2 * r < u || (2 * r == u && q % 2 == 0) then q * u else (q + 1) * u
  }

  /** Round to nearest, ties to even. */
  function Round53(n: int): int {
    if n >= 0 then RoundNat(n) else 0 - RoundNat(0 - n)
  }

  /** An integer with at most 53 significant bits. */
  ghost predicate Representable(f: int) {
    exists k: int, u: nat :: FitsAs(f, k, u)
  }

  ghost predicate FitsAs(f: int, k: int, u: nat) {
    IsPow2(u) && -TwoTo53 <= k <= TwoTo53 && f == k * u
  }

  function Abs(n: int): nat {
    if n >= 0 then n else -n
  }

  lemma {:induction false} UnitIsPow2(n: nat, u: nat)
    requires u >= 1 && IsPow2(u)
    ensures IsPow2(Unit(n, u))
    decreases n - u
  {
    if n >= TwoTo53 * u {
      assert 2 * u / 2 == u;
      UnitIsPow2(n, 2 * u);
    }
  }

  /** The smaller of two powers of two divides the larger. */
  lemma {:induction false} Pow2Divides(u: nat, v: nat) returns (w: nat)
    requires IsPow2(u) && IsPow2(v) && u <= v
    ensures v == w * u && w >= 1
    decreases v
  {
    if u == v {
      w := 1;
    } else if u == 1 {
      w := v;
    } else {
      w := Pow2Divides(u / 2, v / 2);
      assert v == 2 * (w * (u / 2)) == w * (2 * (u / 2));
    }
  }

  lemma {:induction false} Pow2Gap(u: nat, v: nat)
    requires IsPow2(u) && IsPow2(v) && v < u
    ensures 2 * v <= u
  {
    var w := Pow2Divides(v, u);
    if w == 1 {
      assert false;
    }
    assert w * v >= 2 * v;
  }

  lemma ScaleMonotone(a: int, b: int, u: nat)
    requires a <= b
    ensures a * u <= b * u
  {
    assert (b - a) * u >= 0;
  }

  lemma QuotientRemainder(n: nat, u: nat)
    requires u >= 1
    ensures n == (n / u) * u + n % u && 0 <= n % u < u
    ensures (n / u + 1) * u == (n / u) * u + u
  {
  }

  /** Every multiple of u is at least as far from n as the closer of the two neighbouring multiples. */
  lemma NearestMultiple(n: nat, u: nat, c: int)
    requires u >= 1
    ensures Abs(c * u - n) >= (if 2 * (n % u) <= u then n % u else u - n % u)
  {
    QuotientRemainder(n, u);
    var q := n / u;
    if c <= q {
      ScaleMonotone(c, q, u);
    } else {
      ScaleMonotone(q + 1, c, u);
    }
  }

  lemma RoundNatError(n: nat)
    ensures var u := Unit(n, 1);
            Abs(RoundNat(n) - n) == (if 2 * (n % u) <= u then n % u else u - n % u)
  {
    QuotientRemainder(n, Unit(n, 1));
  }

  /** Rounding gives a value of at most 53 significant bits, and no such value is closer. */
  lemma Round53IsNearest(n: int, f: int)
    requires Representable(f)
    ensures Representable(Round53(n))
    ensures Abs(Round53(n) - n) <= Abs(f - n)
  {
    var k: int, u: nat :| FitsAs(f, k, u);
    assert FitsAs(-f, -k, u);
    if n >= 0 {
      RoundIsNearest(n, f);
    } else {
      RoundIsNearest(-n, -f);
      k, u :| FitsAs(RoundNat(-n), k, u);
      assert FitsAs(Round53(n), -k, u);
    }
  }

  lemma RoundIsNearest(n: nat, f: int)
    requires Representable(f)
    ensures Representable(RoundNat(n))
    ensures Abs(RoundNat(n) - n) <= Abs(f - n)
  {
    RoundRepresentable(n);
    RoundNatError(n);
    var u := Unit(n, 1);
    UnitIsPow2(n, 1);
    var k: int, v: nat :| FitsAs(f, k, v);
    if u <= v {
      var w := Pow2Divides(u, v);
      Reassociate(k, w, u);
      NearestMultiple(n, u, k * w);
    } else {
      Pow2Gap(u, v);
      BelowBinade(n, f, k, u, v);
      NearestMultiple(n, u, TwoTo53 / 2);
    }
  }

  lemma Reassociate(k: int, w: int, u: int)
    ensures k * (w * u) == (k * w) * u
  {
  }

  /** A value with a finer unit lies below the binade of n. */
  lemma BelowBinade(n: nat, f: int, k: int, u: nat, v: nat)
    requires u == Unit(n, 1) && u > 1 && 2 * v <= u && k <= TwoTo53 && f == k * v
    ensures f <= (TwoTo53 / 2) * u <= n
  {
    ScaleMonotone(k, TwoTo53, v);
  }

  lemma QuotientBound(n: nat, u: nat)
    requires u >= 1 && n < TwoTo53 * u
    ensures n / u < TwoTo53
  {
    QuotientRemainder(n, u);
    if n / u >= TwoTo53 {
      ScaleMonotone(TwoTo53, n / u, u);
    }
  }

  lemma RoundRepresentable(n: nat)
    ensures Representable(RoundNat(n))
  {
    var u := Unit(n, 1);
    UnitIsPow2(n, 1);
    QuotientBound(n, u);
    var q, r := n / u, n % u;
    var k := if 2 * r < u || (2 * r == u && q % 2 == 0) then q else q + 1;
    assert FitsAs(RoundNat(n), k, u);
  }

  lemma ExactBelow(n: int)
    requires -TwoTo53 <= n <= TwoTo53
    ensures Round53(n) == n
  {
    if Abs(n) == TwoTo53 {
      assert Unit(TwoTo53, 2) == 2;
    }
  }

  function TrailingZeros(p: int): nat
    requires p != 0
    decreases Abs(p)
  {
    if p % 10 != 0 then 0 else 1 + TrailingZeros(p / 10)
  }

  /** p is a possible decimal for the float f: it reads back as f, and it is f written out
      unless it gets by with fewer significant digits. */
  predicate Prints(f: int, p: int) {
    && Round53(p) == f
    && (p == f || (p != 0 && f != 0 && TrailingZeros(p) > TrailingZeros(f)))
  }

  /** num is a trip through float64 and back. */
  ghost predicate FloatTrip(num: int -> int) {
    forall n :: Prints(Round53(n), num(n))
  }

  /** Rounding itself, every float written out in full, is such a trip: rounding twice is rounding once. */
  lemma RoundingIsATrip()
    ensures FloatTrip(n => Round53(n))
  {
    forall n ensures Prints(Round53(n), Round53(n)) {
      assert FitsAs(0, 0, 1);
      Round53IsNearest(n, 0);
      Round53IsNearest(Round53(n), Round53(n));
    }
  }

  /** Only 2^53 and its successor round to 2^53 from above. */
  lemma LargeRoundsLarge(p: nat)
    requires p > TwoTo53
    ensures RoundNat(p) >= TwoTo53
    ensures p > TwoTo53 + 1 ==> RoundNat(p) > TwoTo53
  {
    var u := Unit(p, 1);
    UnitIsPow2(p, 1);
    QuotientRemainder(p, u);
    var q := p / u;
    var half := TwoTo53 / 2;
    assert u >= 2 && half * u <= p;
    if q < half {
      ScaleMonotone(q + 1, half, u);
    }
    ScaleMonotone(half, q, u);
    if u > 2 {
      Pow2Gap(u, 2);
    }
  }

  lemma OddNeighbours()
    ensures TrailingZeros(TwoTo53 + 1) == 0 && TrailingZeros(-TwoTo53 - 1) == 0
    ensures Round53(TwoTo53 + 1) == TwoTo53
  {
    assert Unit(TwoTo53 + 1, 2) == 2;
    assert Unit(TwoTo53 + 1, 1) == 2;
  }

  /** A decimal that prints a float of magnitude at most 2^53 is that float. */
  lemma PrintsExactBelow(f: int, p: int)
    requires Prints(f, p) && -TwoTo53 <= f <= TwoTo53
    ensures p == f
  {
    OddNeighbours();
    if Abs(p) <= TwoTo53 {
      ExactBelow(p);
    } else {
      LargeRoundsLarge(Abs(p));
    }
  }

  /** Integers up to 2^53 in magnitude survive the trip exactly. */
  lemma TripExactBelow(num: int -> int, n: int)
    requires FloatTrip(num)
    requires -TwoTo53 <= n <= TwoTo53
    ensures num(n) == n
  {
    ExactBelow(n);
    assert Prints(Round53(n), num(n));
    PrintsExactBelow(n, num(n));
  }

  /** Distinct identifiers in that range stay distinct. */
  lemma TripInjectiveBelow(num: int -> int, a: int, b: int)
    requires FloatTrip(num)
    requires -TwoTo53 <= a <= TwoTo53 && -TwoTo53 <= b <= TwoTo53
    ensures num(a) == num(b) <==> a == b
  {
    TripExactBelow(num, a);
    TripExactBelow(num, b);
  }

  /** 2^53 is the last safe value: the next identifier comes back as 2^53 itself. */
  lemma TripTight(num: int -> int)
    requires FloatTrip(num)
    ensures num(9007199254740993) == 9007199254740992 == num(9007199254740992) == TwoTo53
  {
    OddNeighbours();
    TripExactBelow(num, TwoTo53);
    assert Prints(Round53(TwoTo53 + 1), num(TwoTo53 + 1));
    PrintsExactBelow(TwoTo53, num(TwoTo53 + 1));
  }
}
