/** The balance rules of the enhancement game: the integer percentages that
    decide an upgrade attempt, the cost of an attempt and the price an item
    sells for. Everything here is a pure function of the item's level. */
module Rules {

  /** The portraits the item advances through, in order (romanised names of
      the Joseon kings). Only their number matters to the rules. */
  const Kings: seq<string> := [
    "Taejo", "Jeongjong", "Taejong", "Sejong", "Munjong", "Danjong", "Sejo",
    "Yejong", "Seongjong", "Yeonsangun", "Jungjong", "Injong", "Myeongjong",
    "Seonjo", "Gwanghaegun", "Injo", "Hyojong", "Hyeonjong", "Sukjong",
    "Gyeongjong", "Yeongjo", "Jeongjo", "Sunjo", "Heonjong", "Cheoljong",
    "Gojong", "Sunjong"
  ]

  /** len(KINGS) and len(KINGS) - 1 */
  const KingCount: nat := |Kings|
  const LastKing: nat := KingCount - 1

  const StartMoney: int := 500_000
  const BaseCost: nat := 500

  /** SELL_MULT = 0.90, kept as the exact fraction 9/10 */
  const SellMultNum: nat := 9
  const SellMultDen: nat := 10
  const SellLevelBonus: nat := 1000

  /** Percent chance that an attempt at level lv succeeds. */
  function SuccessRate(lv: int): (r: int)
    ensures 10 <= r <= 100
    ensures r == 100 <==> lv <= 2
    ensures r == 10 <==> lv >= 20
    ensures 2 < lv < 20 ==> r == 100 - (lv - 2) * 5
  {
    if lv <= 2 then 100 else Max(10, 100 - (lv - 2) * 5)
  }

  /** Percent of failure rolls that drop the item one level. */
  function DownRate(lv: int): (r: int)
    ensures 0 <= r <= 15
    ensures r == 0 <==> lv < 5
    ensures r == 15 <==> lv >= 9
    ensures 5 <= lv <= 8 ==> r == (lv - 4) * 3
  {
    if lv < 5 then 0 else Min(15, (lv - 4) * 3)
  }

  /** Percent of failure rolls that destroy the item. */
  function BreakRate(lv: int): (r: int)
    ensures 0 <= r <= 5
    ensures r == 0 <==> lv < 10
    ensures r == 5 <==> lv >= 14
    ensures 10 <= lv <= 13 ==> r == lv - 9
  {
    if lv < 10 then 0 else Min(5, lv - 9)
  }

  function Max(a: int, b: int): (m: int) { if a < b then b else a }
  function Min(a: int, b: int): (m: int) { if a < b then a else b }

  /** A level that can destroy can also downgrade, at the full 15 percent,
      and the two bands together never exceed the 100 possible rolls. */
  lemma FailureBandsFit(lv: int)
    ensures BreakRate(lv) > 0 ==> DownRate(lv) == 15
    ensures 0 <= BreakRate(lv) + DownRate(lv) <= 20
  {
  }

  /** The success chance never rises with the level. */
  lemma SuccessRateNonIncreasing(a: int, b: int)
    requires a <= b
    ensures SuccessRate(b) <= SuccessRate(a)
  {
  }

  /** The downgrade and destruction chances never fall with the level. */
  lemma FailureRatesNonDecreasing(a: int, b: int)
    requires a <= b
    ensures DownRate(a) <= DownRate(b)
    ensures BreakRate(a) <= BreakRate(b)
  {
  }

  function Pow(b: nat, n: nat): (r: nat)
    decreases n
  {
    if n == 0 then 1 else b * Pow(b, n - 1)
  }

  lemma {:induction false} PowPositive(b: nat, n: nat)
    requires b > 0
    ensures Pow(b, n) > 0
  {
    if n > 0 {
      PowPositive(b, n - 1);
    }
  }

  lemma {:induction false} PowGrows(n: nat)
    ensures Pow(100, n) <= Pow(118, n)
  {
    if n > 0 {
      PowGrows(n - 1);
      PowPositive(100, n - 1);
    }
  }

  lemma MulMonotone(a: int, b: int, c: int)
    requires a <= b && 0 <= c
    ensures a * c <= b * c
  {
  }

  /** x / y is at least k when x is at least k * y. */
  lemma DivAtLeast(x: int, y: int, k: int)
    requires y > 0 && k * y <= x
    ensures k <= x / y
  {
    var q, m := x / y, x % y;
    assert x == q * y + m && m < y;
    if q < k {
      MulMonotone(q + 1, k, y);
      assert false;  // x < (q + 1) * y <= k * y
    }
  }

  /** The cost of one attempt at the given level: int(BASE_COST * 1.18 ** level),
      computed with the exact fraction 118/100 instead of a double. */
  function Cost(level: nat): (r: nat)
    ensures r >= BaseCost
    ensures level == 0 ==> r == BaseCost
  {
    PowGrows(level);
    PowPositive(100, level);
    DivAtLeast(BaseCost * Pow(118, level), Pow(100, level), BaseCost);
    (BaseCost * Pow(118, level)) / Pow(100, level)
  }

  /** One more level costs at least one more coin. */
  lemma CostStep(n: nat)
    ensures Cost(n) < Cost(n + 1)
  {
    var a, b := BaseCost * Pow(118, n), Pow(100, n);
    PowPositive(100, n);
    var q := a / b;
    assert q == Cost(n);
    assert q >= 500;
    assert BaseCost * Pow(118, n + 1) == 118 * a;
    assert Pow(100, n + 1) == 100 * b;
    assert q * b <= a;
    assert 118 * (q * b) <= 118 * a;
    assert 18 * q * b >= 100 * b by {
      assert 18 * q >= 100;
    }
    assert (q + 1) * (100 * b) <= 118 * a;
    DivAtLeast(118 * a, 100 * b, q + 1);
  }

  /** The attempt cost strictly increases with the level. */
  lemma {:induction false} CostStrictlyIncreasing(a: nat, b: nat)
    requires a < b
    ensures Cost(a) < Cost(b)
    decreases b
  {
    CostStep(b - 1);
    if a < b - 1 {
      CostStrictlyIncreasing(a, b - 1);
    }
  }

  /** What a level-`level` item sells for: int(cost * 0.90 + level * 1000).
      In the source the cost term is always that of the current level. */
  function SellPrice(level: nat): (r: nat)
    ensures r >= level * SellLevelBonus
    ensures r >= BaseCost * SellMultNum / SellMultDen
  {
    Cost(level) * SellMultNum / SellMultDen + level * SellLevelBonus
  }

  /** A higher level always sells for more. */
  lemma SellPriceStrictlyIncreasing(a: nat, b: nat)
    requires a < b
    ensures SellPrice(a) < SellPrice(b)
  {
    CostStrictlyIncreasing(a, b);
    assert Cost(a) * 9 <= Cost(b) * 9;
    assert a * 1000 < b * 1000;
  }

  /** The concrete values the balance table is designed around. */
  lemma RateTable()
    ensures KingCount == 27 && LastKing == 26
    ensures SuccessRate(2) == 100 && SuccessRate(3) == 95 && SuccessRate(19) == 15 && SuccessRate(20) == 10
    ensures DownRate(4) == 0 && DownRate(5) == 3 && DownRate(20) == 15
    ensures BreakRate(9) == 0 && BreakRate(10) == 1 && BreakRate(14) == 5
    ensures Cost(0) == 500 && Cost(1) == 590 && Cost(2) == 696
  {
  }
}
