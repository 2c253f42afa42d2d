/** The release sweep: how points are dealt to shards, how shards are seeded, and what each shard holds. */
module Sweep {
  import opened Wrappers
  const SWEEP_MASTER_SEED: nat := 0xB1EA_5EED_256B_0001
  const SWEEP_SEED_STEP: nat := 0x9E37_79B9_7F4A_7C15
  const SWEEP_STRUCTURED_ROWS: nat := 20
  const Q64: nat := 0x1_0000_0000_0000_0000
  const STEP_INVERSE: nat := 0xF1DE_83E1_9937_733D
  const STEP_QUOTIENT: nat := 10771413168148108919

  // ---------- Seeds ----------

  function SweepSeed(shard: nat): nat { (SWEEP_MASTER_SEED + (shard + 1) * SWEEP_SEED_STEP) % Q64 }

  /** If step has an inverse modulo m, only multiples of m are sent to multiples of m. */
  lemma OnlyMultiples(x: int, step: int, inverse: int, k: int, m: int, n: int)
    requires step * inverse == 1 + k * m && x * step == n * m
    ensures x == (n * inverse - k * x) * m
  {
    calc {
      x;
      x * (step * inverse) - x * (k * m);
      (x * step) * inverse - k * x * m;
      n * m * inverse - k * x * m;
      (n * inverse - k * x) * m;
    }
  }

  lemma MultipleOfModulus(x: int, y: int, m: nat)
    requires m > 0
    ensures x % m == y % m <==> exists n :: x - y == n * m
  {
    if x % m == y % m {
      assert x - y == (x / m - y / m) * m;
    }
    if n :| x - y == n * m {
      SameRemainder(x, y, m, n);
    }
  }

  lemma SameRemainder(x: int, y: int, m: nat, n: int)
    requires m > 0 && x - y == n * m
    ensures x % m == y % m
  {
    var d := x / m - y / m - n;
    assert x % m - y % m == 0 - d * m;
    assert d > 0 ==> d * m >= m;
    assert d < 0 ==> d * m <= 0 - m;
  }

  /** Two shards share a seed exactly when their indices agree modulo 2^64: the step is odd, so up to
      2^64 shards all draw from different generators. */
  lemma SeedsCollideIff(i: nat, j: nat)
    ensures SweepSeed(i) == SweepSeed(j) <==> i % Q64 == j % Q64
  {
    var x, y := SWEEP_MASTER_SEED + (i + 1) * SWEEP_SEED_STEP, SWEEP_MASTER_SEED + (j + 1) * SWEEP_SEED_STEP;
    assert x - y == (i - j) * SWEEP_SEED_STEP;
    MultipleOfModulus(x, y, Q64);
    MultipleOfModulus(i, j, Q64);
    if n :| x - y == n * Q64 {
      OnlyMultiples(i - j, SWEEP_SEED_STEP, STEP_INVERSE, STEP_QUOTIENT, Q64, n);
    }
    if n :| i - j == n * Q64 {
      assert x - y == (n * SWEEP_SEED_STEP) * Q64;
    }
  }

  /** The seeds start one step past the master seed and advance by the step, modulo 2^64. */
  lemma SeedsAdvance(i: nat)
    ensures SweepSeed(0) == 0x5021_D8A6_A4B5_7C16
    ensures SweepSeed(i + 1) == (SweepSeed(i) + 0x9E37_79B9_7F4A_7C15) % 0x1_0000_0000_0000_0000
  {
    var x, y := SWEEP_MASTER_SEED + (i + 1) * SWEEP_SEED_STEP, SWEEP_MASTER_SEED + (i + 2) * SWEEP_SEED_STEP;
    assert y == x + SWEEP_SEED_STEP;
    SameRemainder(y, x % Q64 + SWEEP_SEED_STEP, Q64, x / Q64);
  }

  // ---------- Shards ----------

  datatype Plan =
    | Planned(rows: seq<nat>)
    | PointsNotPositive
    | ShardsNotPositive
    | WorkersNotPositive
    | TooFewPoints

  function Sum(rows: seq<nat>): nat {
    if rows == [] then 0 else Sum(rows[..|rows| - 1]) + rows[|rows| - 1]
  }

  lemma SumAppend(rows: seq<nat>, next: nat)
    ensures Sum(rows + [next]) == Sum(rows) + next
  {
    assert (rows + [next])[..|rows|] == rows;
  }

  /** The points are dealt out exactly, as evenly as possible, with room for the structured rows in
      every shard. */
  ghost predicate FairShares(rows: seq<nat>, points: int, shards: int) {
    && |rows| == shards
    && Sum(rows) == points
    && (forall i :: 0 <= i < |rows| ==> rows[i] >= 20)
    && (forall i, j :: 0 <= i < j < |rows| ==> rows[j] <= rows[i] <= rows[j] + 1)
  }

  method PlanShards(points: int, shards: int, workers: int) returns (plan: Plan)
    ensures plan.PointsNotPositive? <==> points < 1
    ensures plan.ShardsNotPositive? <==> points >= 1 && shards < 1
    ensures plan.WorkersNotPositive? <==> points >= 1 && shards >= 1 && workers < 1
    ensures plan.TooFewPoints? <==>
            points >= 1 && shards >= 1 && workers >= 1 && points < shards * SWEEP_STRUCTURED_ROWS
    ensures plan.Planned? ==> FairShares(plan.rows, points, shards)
  {
    hide Sum, Dealt, FairShares;
    if points < 1 {
      return PointsNotPositive;
    }
    if shards < 1 {
      return ShardsNotPositive;
    }
    if workers < 1 {
      return WorkersNotPositive;
    }
    if points < shards * SWEEP_STRUCTURED_ROWS {
      return TooFewPoints;
    }
    var base, extra := points / shards, points % shards;
    RoomForStructured(points, shards);
    var rows := Deal(shards, base, extra);
    DealtFairly(rows, points, shards);
    plan := Planned(rows);
  }

  /** Each shard's row count: one more for each of the first extra shards. */
  method Deal(shards: nat, base: nat, extra: nat) returns (rows: seq<nat>)
    ensures |rows| == shards
    ensures forall j :: 0 <= j < shards ==> rows[j] == base + (if j < extra then 1 else 0)
    ensures Sum(rows) == Dealt(shards, base, extra)
  {
    hide Sum, Dealt;
    rows := [];
    DealtStart(base, extra);
    for i := 0 to shards
      invariant |rows| == i
      invariant forall j :: 0 <= j < i ==> rows[j] == base + (if j < extra then 1 else 0)
      invariant Sum(rows) == Dealt(i, base, extra)
    {
      var next := base + (if i < extra then 1 else 0);
      SumAppend(rows, next);
      DealtStep(i, base, extra);
      rows := rows + [next];
    }
  }

  /** What the first i shards receive. */
  function Dealt(i: nat, base: nat, extra: nat): nat { i * base + (if i < extra then i else extra) }

  lemma DealtStart(base: nat, extra: nat)
    ensures Dealt(0, base, extra) == 0 && Sum([]) == 0
  {}

  lemma DealtStep(i: nat, base: nat, extra: nat)
    ensures Dealt(i + 1, base, extra) == Dealt(i, base, extra) + base + (if i < extra then 1 else 0)
  {
    assert (i + 1) * base == i * base + base;
  }

  lemma DealtFairly(rows: seq<nat>, points: nat, shards: nat)
    requires shards > 0 && |rows| == shards && points / shards >= SWEEP_STRUCTURED_ROWS
    requires forall j :: 0 <= j < shards ==> rows[j] == points / shards + (if j < points % shards then 1 else 0)
    requires Sum(rows) == Dealt(shards, points / shards, points % shards)
    ensures FairShares(rows, points, shards)
  {
    hide Sum;
    var base := points / shards;
    assert points == shards * base + points % shards;
  }

  lemma RoomForStructured(points: int, shards: int)
    requires shards >= 1 && points >= shards * SWEEP_STRUCTURED_ROWS
    ensures points / shards >= SWEEP_STRUCTURED_ROWS
  {
    QuotientBound(points / shards, points % shards, shards, SWEEP_STRUCTURED_ROWS);
  }

  lemma QuotientBound(q: int, r: int, n: int, k: int)
    requires 0 <= r < n && q * n + r >= n * k
    ensures q >= k
  {
    var d := k - q;
    assert d * n == k * n - q * n;
    assert d >= 1 ==> d * n >= n;
  }

  datatype Categories = Categories(fractional: nat, wide: nat, log2: nat, ln: nat, cost: int)

  /** A shard's random rows by category; the cost rows take what rounding leaves. */
  function Categorise(random: nat): Categories {
    var fractional, wide, log2, ln := random * 55 / 100, random * 15 / 100, random * 10 / 100, random * 10 / 100;
    Categories(fractional, wide, log2, ln, random - (fractional + wide + log2 + ln))
  }

  /** The structured and random rows fill the shard exactly, and the cost rows, which are only a
      remainder, are never negative: at least a tenth of the random rows, and under four more. */
  lemma CategoriesFill(rows: nat)
    requires rows >= SWEEP_STRUCTURED_ROWS
    ensures var random := rows - 20;
            var c := Categorise(random);
            && 20 + c.fractional + c.wide + c.log2 + c.ln + c.cost == rows
            && 100 * c.fractional <= 55 * random < 100 * (c.fractional + 1)
            && 100 * c.wide <= 15 * random < 100 * (c.wide + 1)
            && 10 * c.log2 <= random < 10 * (c.log2 + 1) && c.ln == c.log2
            && random <= 10 * c.cost < random + 40
  {}

  // ---------- A random cost row ----------

  datatype CostRow = CostRow(long: nat, short: nat, liquidity: nat)

  /** The liquidity in whole units: a decade, then a value within it. */
  function Units(decadeBits: nat, unitBits: nat): nat {
    var lower := Power10(decadeBits % 9);
    lower + unitBits % (9 * lower)
  }

  function Scaled(b: nat, ratio: nat): nat { b * ratio / Q64 }

  /** The row built from the generator's draws. */
  function RandomCostRow(decadeBits: nat, unitBits: nat, commonBits: nat, domainBits: nat,
                         longer: bool): (row: CostRow) {
    var b := Units(decadeBits, unitBits) * Q64;
    var common := Scaled(b, commonBits % (101 * Q64));
    var difference := Scaled(b, domainBits % (48 * Q64 + 1));
    if longer then CostRow(common + difference, common, b) else CostRow(common, common + difference, b)
  }

  lemma UnitsBound(decadeBits: nat, unitBits: nat)
    ensures 1 <= Units(decadeBits, unitBits) < Power10(9)
    ensures Power10(decadeBits % 9) <= Units(decadeBits, unitBits) < 10 * Power10(decadeBits % 9)
  {
    PowerMonotone(decadeBits % 9 + 1, 9);
    var lower := Power10(decadeBits % 9);
    hide Power10;
    assert Power10(decadeBits % 9 + 1) == 10 * lower;
    assert unitBits % (9 * lower) < 9 * lower;
  }

  lemma RatioBound(b: nat, ratio: nat, limit: nat)
    requires ratio <= limit * Q64
    ensures Scaled(b, ratio) <= limit * b
  {
    var share := b * ratio;
    assert share <= b * (limit * Q64);
    assert b * (limit * Q64) == (limit * b) * Q64;
    var quotient := share / Q64;
    assert quotient * Q64 <= share;
    assert quotient > limit * b ==> quotient * Q64 >= (limit * b + 1) * Q64;
  }

  /** Whatever the draws, the liquidity lies in the decade drawn, between one and a billion units; the gap
      between the quantities lies in the maker's domain of 48 times the liquidity and the smaller one is at
      most 101 times it, both floored products of the draws; and the draw says which one is larger. */
  lemma CostRowInDomain(decadeBits: nat, unitBits: nat, commonBits: nat, domainBits: nat, longer: bool)
    ensures var row := RandomCostRow(decadeBits, unitBits, commonBits, domainBits, longer);
            && Q64 <= row.liquidity < Power10(9) * Q64
            && Power10(decadeBits % 9) * Q64 <= row.liquidity < 10 * Power10(decadeBits % 9) * Q64
            && var small, gap := if longer then row.short else row.long,
                                 if longer then row.long - row.short else row.short - row.long;
               && 0 <= gap <= 48 * row.liquidity && small <= 101 * row.liquidity
               && IsFloored(small, row.liquidity, commonBits % (101 * Q64))
               && IsFloored(gap, row.liquidity, domainBits % (48 * Q64 + 1))
  {
    hide Units, Scaled, Power10, IsFloored;
    UnitsBound(decadeBits, unitBits);
    var b := Units(decadeBits, unitBits) * Q64;
    RatioBound(b, commonBits % (101 * Q64), 101);
    RatioBound(b, domainBits % (48 * Q64 + 1), 48);
    ScaledIsFloored(b, commonBits % (101 * Q64));
    ScaledIsFloored(b, domainBits % (48 * Q64 + 1));
  }

  /** x is b times a 64-bit fixed-point ratio, rounded down. */
  ghost predicate IsFloored(x: int, b: nat, ratio: nat) {
    x * 0x1_0000_0000_0000_0000 <= b * ratio < (x + 1) * 0x1_0000_0000_0000_0000
  }

  lemma ScaledIsFloored(b: nat, ratio: nat)
    ensures IsFloored(Scaled(b, ratio), b, ratio)
  {
    var v := b * ratio;
    assert v == (v / Q64) * Q64 + v % Q64;
  }

  lemma {:induction false} PowerMonotone(m: nat, n: nat)
    requires m <= n
    ensures Power10(m) <= Power10(n)
    decreases n
  {
    if m < n {
      PowerMonotone(m, n - 1);
    }
  }
}
