/** Pieces of the progression engine shared by both game variants: the
    generator cost step, the price schedule it produces, and the random
    draws of a click's bonus drop, taken as explicit inputs. */
module Economy {

  /** The cost of a generator after one purchase: floor(cost * 1.15),
      computed exactly on integers. */
  function NextCost(c: nat): (r: nat)
    ensures r * 100 <= c * 115 < r * 100 + 100
  {
    c * 115 / 100
  }

  /** The step never lowers a cost, never adds more than 15%, and strictly
      raises every cost of at least 7. */
  lemma NextCostBounds(c: nat)
    ensures c <= NextCost(c)
    ensures NextCost(c) * 100 <= c * 115
    ensures c >= 7 ==> NextCost(c) > c
  {
  }

  /** Costs below 7 are exactly the fixed points of the step: for them
      floor(c * 1.15) == c and buying never makes them dearer. */
  lemma NextCostFixedPoints(c: nat)
    ensures NextCost(c) == c <==> c < 7
  {
  }

  /** A dearer generator stays at least as dear after one purchase each. */
  lemma NextCostMonotone(a: nat, b: nat)
    requires a <= b
    ensures NextCost(a) <= NextCost(b)
  {
  }

  /** The cost of a generator that started at `base` and has been bought
      `k` times: the step applied k times, one purchase after another. */
  function CostAt(base: nat, k: nat): nat
    decreases k
  {
    if k == 0 then base else NextCost(CostAt(base, k - 1))
  }

  /** From a starting cost of at least 7 every purchase raises the cost by
      at least one coin. */
  lemma {:induction false} CostAtGrows(base: nat, k: nat)
    requires base >= 7
    ensures CostAt(base, k) >= base + k
  {
    if k > 0 {
      CostAtGrows(base, k - 1);
      NextCostBounds(CostAt(base, k - 1));
    }
  }

  /** The price schedule is non-decreasing in the number of purchases. */
  lemma {:induction false} CostAtMonotone(base: nat, j: nat, k: nat)
    requires j <= k
    ensures CostAt(base, j) <= CostAt(base, k)
  {
    if j < k {
      CostAtMonotone(base, j, k - 1);
      NextCostBounds(CostAt(base, k - 1));
    }
  }

  /** From a starting cost of at least 7 the schedule is strictly
      increasing, so a later purchase always costs more than an earlier. */
  lemma CostAtStrictlyIncreasing(base: nat, j: nat, k: nat)
    requires base >= 7 && j < k
    ensures CostAt(base, j) < CostAt(base, k)
  {
  }

  function Pow(b: nat, k: nat): (r: nat)
    decreases k
  {
    if k == 0 then 1 else b * Pow(b, k - 1)
  }

  lemma MulLeftMonotone(a: nat, b: nat, c: nat)
    requires a <= b
    ensures a * c <= b * c
  {
  }

  lemma MulRegroup(x: nat, y: nat, z: nat)
    ensures x * (y * z) == (x * y) * z == y * (x * z)
  {
  }

  /** Compounding bound: after k purchases the cost is at most
      base * 1.15^k, i.e. CostAt(base, k) * 100^k <= base * 115^k. */
  lemma {:induction false} CostAtCompounding(base: nat, k: nat)
    ensures CostAt(base, k) * Pow(100, k) <= base * Pow(115, k)
  {
    if k > 0 {
      var c, p, q := CostAt(base, k - 1), Pow(100, k - 1), Pow(115, k - 1);
      var n := NextCost(c);
      CostAtCompounding(base, k - 1);
      assert c * p <= base * q;
      assert n * 100 <= c * 115;
      MulRegroup(n, 100, p);
      assert n * Pow(100, k) == (n * 100) * p;
      MulLeftMonotone(n * 100, c * 115, p);
      MulRegroup(c, 115, p);
      assert (c * 115) * p == 115 * (c * p);
      MulLeftMonotone(c * p, base * q, 115);
      MulRegroup(base, 115, q);
      assert 115 * (base * q) == base * Pow(115, k);
    }
  }

  /** x shifted right by k bits: x / 2^k. */
  function ShiftRight(x: nat, k: nat): nat
    decreases k
  {
    if k == 0 then x else ShiftRight(x / 2, k - 1)
  }

  /** x shifted left by k bits: x * 2^k. */
  function ShiftLeft(x: nat, k: nat): nat
    decreases k
  {
    if k == 0 then x else 2 * ShiftLeft(x, k - 1)
  }

  /** Doubles keep 53 significant bits; 2^53 and 2^51 as literals. */
  const TwoTo53: nat := 9007199254740992
  const TwoTo51: nat := 2251799813685248

  /** How many low bits of x a double cannot keep: the least s with
      x / 2^s < 2^53. */
  function Excess(x: nat): nat
    decreases x
  {
    if x < TwoTo53 then 0 else 1 + Excess(x / 2)
  }

  /** The double nearest to 1.15 is 2589569785738035 / 2^51, a little
      below 1.15. */
  const DoubleOnePointOneFive: nat := 2589569785738035

  /** The cost step as the source computes it: the exact product of the
      cost and the double nearest 1.15, rounded to 53 significant bits
      (to nearest, ties to even) as a double multiplication does, then
      floored. Faithful for costs below 2^53, where every integer is a
      double. */
  function DoubleNextCost(c: nat): nat
  {
    var x := c * DoubleOnePointOneFive;
    var s := Excess(x);
    var q := ShiftRight(x, s);
    var rem, half := x - ShiftLeft(q, s), if s == 0 then 0 else ShiftLeft(1, s - 1);
    var q' := if s > 0 && (rem > half || (rem == half && q % 2 == 1)) then q + 1 else q;
    ShiftLeft(q', s) / TwoTo51
  }

  lemma CostAtSucc(base: nat, k: nat, c: nat)
    requires CostAt(base, k) == c
    ensures CostAt(base, k + 1) == NextCost(c)
  {
  }

  /** The step as written and the exact step part at a cost the game
      reaches: a generator that starts at 30 costs 220 after 15 purchases,
      and then the double product gives 252 where floor(220 * 1.15) is 253. */
  lemma DoubleStepLosesACoin()
    ensures CostAt(30, 15) == 220
    ensures DoubleNextCost(220) == 252 && NextCost(220) == 253
  {
    CostAtSucc(30, 0, 30);   CostAtSucc(30, 1, 34);   CostAtSucc(30, 2, 39);
    CostAtSucc(30, 3, 44);   CostAtSucc(30, 4, 50);   CostAtSucc(30, 5, 57);
    CostAtSucc(30, 6, 65);   CostAtSucc(30, 7, 74);   CostAtSucc(30, 8, 85);
    CostAtSucc(30, 9, 97);   CostAtSucc(30, 10, 111); CostAtSucc(30, 11, 127);
    CostAtSucc(30, 12, 146); CostAtSucc(30, 13, 167); CostAtSucc(30, 14, 192);
    // 220 * 1.15 in doubles: 6 low bits are rounded away, and the discarded
    // remainder 20 is below half of 2^6, so the product rounds down.
    var x := 220 * DoubleOnePointOneFive;
    assert x == 569705352862367700;
    assert Excess(x) == 6;
    assert ShiftRight(x, 6) == 8901646138474495;
    assert ShiftLeft(8901646138474495, 6) == 569705352862367680;
    assert ShiftLeft(1, 5) == 32;
  }

  /** The random draws of one click: whether the bonus drop fires
      (Math.random() below the variant's probability), the index drawn
      into the drop pool, and the amount floor(Math.random() * 10) + 1. */
  datatype Roll = Roll(triggered: bool, pick: nat, amount: nat)

  /** The ranges Math.random() guarantees: an index inside a pool of
      `poolSize` kinds and an amount in 1..10. Nothing is drawn when the
      drop does not fire. */
  predicate Fits(roll: Roll, poolSize: nat)
  {
    roll.triggered ==> roll.pick < poolSize && 1 <= roll.amount <= 10
  }
}
