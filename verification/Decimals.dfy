/** Products of an amount and a score, as the reference model computes them: in a decimal context of a
    hundred significant digits, rounding half to even, and only then rounded down to a base unit. */
module Decimals {
  import opened Wrappers

  const SCALE: nat := 1_000_000_000

  /** Products of smaller amounts with a score fit the context: this is 10^91, and SCALE is 10^9. */
  const AMOUNT_LIMIT: nat :=
    1_0000000000000_0000000000000_0000000000000_0000000000000_0000000000000_0000000000000_0000000000000

  /** The least integer of more than a hundred digits. */
  const COEFFICIENT_LIMIT: nat := AMOUNT_LIMIT * SCALE

  /** What n claims worth share each come to, out of SCALE. */
  function Worth(n: nat, share: nat): nat { n * share }

  /** amount * share / SCALE, rounded down to a whole base unit. */
  function FloorShare(amount: nat, share: nat): (r: nat)
    ensures SCALE * r <= Worth(amount, share) < SCALE * r + SCALE
  {
    Worth(amount, share) / SCALE
  }

  /** The weight of the last digit that a hundred-digit context keeps of v. */
  function Quantum(v: nat): (q: nat)
    ensures q > 0
  {
    if v < COEFFICIENT_LIMIT then 1 else 10 * Quantum(v / 10)
  }

  /** How many times q comes nearest to v, ties to an even number. */
  function HalfEven(v: nat, q: nat): nat
    requires q > 0
  {
    var n, r := v / q, v % q;
    if q < 2 * r || (2 * r == q && n % 2 == 1) then n + 1 else n
  }

  function Rounded(v: nat): nat { HalfEven(v, Quantum(v)) * Quantum(v) }

  /** The source's floored product. */
  function FloorProduct(amount: nat, share: nat): nat { Rounded(Worth(amount, share)) / SCALE }

  // ---------- What rounding does ----------

  /** The context keeps a hundred digits and no fewer, and moves a value to the nearest such number, a
      tie to the one whose last digit is even. */
  lemma RoundedIsNearest(v: nat)
    ensures v / Quantum(v) < COEFFICIENT_LIMIT
    ensures v >= COEFFICIENT_LIMIT ==> v / Quantum(v) >= COEFFICIENT_LIMIT / 10
    ensures NearestMultiple(v, Quantum(v), HalfEven(v, Quantum(v)))
  {
    QuantumKeeps(v);
    var q := Quantum(v);
    hide Quantum;
    HalfEvenIsNearest(v, q);
  }

  /** n times q is at most half of q away from v, and n is even if it is exactly that. */
  ghost predicate NearestMultiple(v: nat, q: nat, n: nat) {
    && 2 * v - q <= 2 * (n * q) <= 2 * v + q
    && (2 * (n * q) == 2 * v - q || 2 * (n * q) == 2 * v + q ==> n % 2 == 0)
  }

  lemma HalfEvenIsNearest(v: nat, q: nat)
    requires q > 0
    ensures NearestMultiple(v, q, HalfEven(v, q))
  {
    var n, r := v / q, v % q;
    assert v == n * q + r;
    assert (n + 1) * q == n * q + q;
  }

  lemma {:induction false} QuantumKeeps(v: nat)
    ensures v / Quantum(v) < COEFFICIENT_LIMIT
    ensures v >= COEFFICIENT_LIMIT ==> v / Quantum(v) >= COEFFICIENT_LIMIT / 10
  {
    if v >= COEFFICIENT_LIMIT {
      QuantumKeeps(v / 10);
      DivideTwice(v, Quantum(v / 10));
    }
  }

  lemma DivideTwice(v: nat, q: nat)
    requires q > 0
    ensures v / (10 * q) == v / 10 / q
  {
    var a, b := v / 10, v / 10 / q;
    assert v == 10 * a + v % 10 && a == b * q + a % q;
    assert v == b * (10 * q) + (10 * (a % q) + v % 10);
    QuotientIs(v, 10 * q, b, 10 * (a % q) + v % 10);
  }

  lemma QuotientIs(v: nat, d: nat, n: nat, r: nat)
    requires v == n * d + r && r < d
    ensures v / d == n && v % d == r
  {
    var e := v / d - n;
    assert v == (v / d) * d + v % d;
    assert e * d == r - v % d;
    assert e >= 1 ==> e * d >= d;
    assert e <= -1 ==> e * d <= 0 - d;
  }

  /** Below the limit nothing is rounded, so the product is floored exactly. */
  lemma FloorProductExact(amount: nat, share: nat)
    requires amount < AMOUNT_LIMIT && share <= SCALE
    ensures FloorProduct(amount, share) == FloorShare(amount, share)
  {
    ProductFits(amount, share, AMOUNT_LIMIT, SCALE);
    SmallIsExact(Worth(amount, share));
  }

  lemma ProductFits(a: nat, s: nat, limit: nat, scale: nat)
    requires a < limit && s <= scale && scale > 0
    ensures a * s < limit * scale
  {
    assert a * s <= a * scale;
    assert a * scale < limit * scale;
  }

  lemma SmallIsExact(v: nat)
    requires v < COEFFICIENT_LIMIT
    ensures Quantum(v) == 1 && Rounded(v) == v
  {
    assert Quantum(v) == 1;
  }

  /** At any size the product misses the exact floor by at most half a unit of the last digit kept. */
  lemma FloorProductNear(amount: nat, share: nat)
    ensures var v, q := Worth(amount, share), Quantum(Worth(amount, share));
            2 * v - q - 2 * SCALE < 2 * (SCALE * FloorProduct(amount, share)) <= 2 * v + q
  {
    var v := Worth(amount, share);
    RoundedIsNearest(v);
    FloorOf(Rounded(v), SCALE);
  }

  lemma FloorOf(v: nat, d: nat)
    requires d > 0
    ensures v - d < d * (v / d) <= v
  {
    assert v == d * (v / d) + v % d;
  }

  lemma NothingFloored(share: nat)
    ensures FloorProduct(0, share) == 0
  {
    assert Worth(0, share) == 0;
  }

  // ---------- Where the exact floor is missed ----------

  /** A tie at the hundredth digit is rounded up before the floor: half of 10^100 - 1 comes out half a unit too high. */
  lemma OverpaidHalf(amount: nat)
    requires amount == COEFFICIENT_LIMIT - 1
    ensures FloorProduct(amount, SCALE / 2) == FloorShare(amount, SCALE / 2) + 1
    ensures 2 * FloorProduct(amount, SCALE / 2) == amount + 1
  {
    var v, half := Worth(amount, SCALE / 2), COEFFICIENT_LIMIT / 2;
    assert v == (half - 1) * SCALE + SCALE / 2;
    QuotientIs(v, SCALE, half - 1, SCALE / 2);
    NinePlaces();
    QuantumAt(v, 9);
    assert Rounded(v) == half * SCALE;
  }

  lemma NinePlaces()
    ensures Power10(9) == SCALE
  {
    assert Power10(3) == 1000;
    assert Power10(6) == 1000 * Power10(3);
    assert Power10(9) == 1000 * Power10(6);
  }

  lemma {:induction false} QuantumAt(v: nat, places: nat)
    requires COEFFICIENT_LIMIT / 10 <= v / Power10(places) < COEFFICIENT_LIMIT
    ensures Quantum(v) == Power10(places)
  {
    if places > 0 {
      DivideTwice(v, Power10(places - 1));
      AtLeast(v, Power10(places), COEFFICIENT_LIMIT / 10);
      QuantumAt(v / 10, places - 1);
    }
  }

  lemma AtLeast(v: nat, q: nat, n: nat)
    requires q >= 10 && n <= v / q
    ensures 10 * n <= v
  {
    var d := v / q;
    assert v == d * q + v % q;
    assert 10 * d <= d * q;
  }
}
