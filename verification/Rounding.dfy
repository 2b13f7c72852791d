/** Fixed-point operations that lose information, and what each rounding policy promises. */
module Rounding {
  /** Quantities and prices count 1e-8, money 1e-4. */
  const ONE_SHARE := 100_000_000
  const QTY_PRICE_TO_MONEY := 1_000_000_000_000

  datatype Policy = TowardZero | TowardNegInf | HalfUp | HalfEven

  function Abs(x: int): nat {
    if x < 0 then -x else x
  }

  /** Division truncated toward zero, and its remainder, which takes the sign of the dividend. */
  function TruncDiv(n: int, d: int): int
    requires d > 0
  {
    if n >= 0 then n / d else -((-n) / d)
  }

  function TruncMod(n: int, d: int): int
    requires d > 0
  {
    n - TruncDiv(n, d) * d
  }

  function RoundDiv(p: Policy, n: int, d: int): int
    requires d > 0
  {
    var q := TruncDiv(n, d);
    var r := TruncMod(n, d);
    var sign := if n < 0 then -1 else 1;
    var twice := 2 * Abs(r);
    if r == 0 then q
    else match p
      case TowardZero => q
      case TowardNegInf => if n < 0 then q - 1 else q
      case HalfUp => if twice >= d then q + sign else q
      case HalfEven => if twice > d || (twice == d && q % 2 != 0) then q + sign else q
  }

  /** a times b over d, the product exact and the division rounded once. */
  function MulDiv(p: Policy, a: int, b: int, d: int): int
    requires d > 0
  {
    RoundDiv(p, a * b, d)
  }

  /** What each policy means, without computing it: how far `q * d` may be from `n`, and on which side. */
  predicate IsRounded(p: Policy, n: int, d: int, q: int) {
    var e := n - q * d;
    match p
    case TowardZero => -d < e < d && (n >= 0 ==> e >= 0) && (n <= 0 ==> e <= 0)
    case TowardNegInf => 0 <= e < d
    case HalfUp => -d <= 2 * e <= d && (2 * e == d ==> n < 0) && (2 * e == -d ==> n > 0)
    case HalfEven => -d <= 2 * e <= d && (Abs(2 * e) == d ==> q % 2 == 0)
  }

  lemma TruncParts(n: int, d: int)
    requires d > 0
    ensures n == TruncDiv(n, d) * d + TruncMod(n, d)
    ensures Abs(TruncMod(n, d)) < d && (n >= 0 ==> TruncMod(n, d) >= 0) && (n <= 0 ==> TruncMod(n, d) <= 0)
  {
    var m := Abs(n);
    assert m == m / d * d + m % d;
  }

  /** Every policy computes a value of its meaning … */
  lemma Rounded(p: Policy, n: int, d: int)
    requires d > 0
    ensures IsRounded(p, n, d, RoundDiv(p, n, d))
  {
    hide TruncDiv, TruncMod;
    TruncParts(n, d);
    var q, r := TruncDiv(n, d), TruncMod(n, d);
    assert (q + 1) * d == q * d + d && (q - 1) * d == q * d - d;
  }

  /** … and that meaning admits no other value. */
  lemma RoundedUnique(p: Policy, n: int, d: int, q: int)
    requires d > 0 && IsRounded(p, n, d, q)
    ensures q == RoundDiv(p, n, d)
  {
    hide RoundDiv;
    Rounded(p, n, d);
    var x := RoundDiv(p, n, d);
    OnlyOne(p, n, d, q, x);
    OnlyOne(p, n, d, x, q);
  }

  lemma MulLe(a: int, b: int, d: int)
    requires a <= b && d >= 0
    ensures a * d <= b * d
  {
    assert (b - a) * d >= 0;
  }

  lemma Gap(q: int, x: int, d: int)
    requires d > 0
    ensures q < x ==> x * d >= q * d + d
    ensures q + 1 < x ==> x * d >= q * d + 2 * d
    ensures x == q + 1 ==> x * d == q * d + d
  {
    assert (q + 1) * d == q * d + d && (q + 2) * d == q * d + 2 * d;
    if q < x {
      MulLe(q + 1, x, d);
    }
    if q + 1 < x {
      MulLe(q + 2, x, d);
    }
  }

  lemma OnlyOne(p: Policy, n: int, d: int, q: int, x: int)
    requires d > 0 && IsRounded(p, n, d, q) && IsRounded(p, n, d, x)
    ensures q >= x
  {
    Gap(q, x, d);
  }

  /** Rounding half to even is monotone. */
  lemma HalfEvenMonotone(n: int, m: int, d: int)
    requires d > 0 && n <= m
    ensures RoundDiv(HalfEven, n, d) <= RoundDiv(HalfEven, m, d)
  {
    hide RoundDiv;
    Rounded(HalfEven, n, d);
    Rounded(HalfEven, m, d);
    var a, b := RoundDiv(HalfEven, n, d), RoundDiv(HalfEven, m, d);
    if b < a {
      Gap(b, a, d);
      assert false;
    }
  }

  // ---------------------------------------------------------------- the ledger's operations

  function Notional(qty: int, price: int, factor: int): int
    requires factor > 0
  {
    MulDiv(HalfEven, qty, price, QTY_PRICE_TO_MONEY * factor)
  }

  /** The cost of a position, rebuilt from its quantity and average price. */
  function PositionCost(qty: int, price: int): int {
    MulDiv(HalfEven, qty, price, QTY_PRICE_TO_MONEY)
  }

  /** The average price after adding `add` shares that cost `cost`; zero once the position is not positive. */
  function AveragePrice(qty: int, price: int, add: int, cost: int): int {
    if qty + add <= 0 then 0
    else MulDiv(HalfEven, PositionCost(qty, price) + cost, QTY_PRICE_TO_MONEY, qty + add)
  }

  datatype Scaled = Scaled(whole: int, leftover: int)

  /** A quantity after a split or grouping, cut to whole shares, and the fraction cut off. */
  function ScaleTrunc(qty: int, num: int, den: int): Scaled
    requires den > 0
  {
    var total := MulDiv(TowardZero, qty, num, den);
    var whole := TruncDiv(total, ONE_SHARE) * ONE_SHARE;
    Scaled(whole, total - whole)
  }

  function ScaleKeep(qty: int, num: int, den: int): int
    requires den > 0
  {
    MulDiv(TowardZero, qty, num, den)
  }

  function ScalePrice(price: int, num: int, den: int): int
    requires num > 0
  {
    MulDiv(HalfEven, price, den, num)
  }

  // ---------------------------------------------------------------- average price does not drift

  /** The price of `total` shares that cost `cost` in all. */
  function FairPrice(cost: int, total: int): int
    requires total > 0
  {
    MulDiv(HalfEven, cost, QTY_PRICE_TO_MONEY, total)
  }

  /** Up to 10,000 shares, the cost rebuilt from the rounded price is the cost. */
  lemma CostRebuilt(cost: int, total: int)
    requires 0 < total <= QTY_PRICE_TO_MONEY
    ensures PositionCost(total, FairPrice(cost, total)) == cost
  {
    hide RoundDiv;
    var k, p := QTY_PRICE_TO_MONEY, FairPrice(cost, total);
    Rounded(HalfEven, cost * k, total);
    if total < k {
      RoundedUnique(HalfEven, total * p, k, cost);
    } else {
      RoundedUnique(HalfEven, cost * k, k, cost);
      RoundedUnique(HalfEven, total * p, k, cost);
    }
  }

  /** Past that, whatever the total, some cost is not rebuilt. */
  lemma CostLost(total: int)
    requires total > QTY_PRICE_TO_MONEY
    ensures exists cost :: 0 <= cost <= total && PositionCost(total, FairPrice(cost, total)) != cost
  {
    if forall cost :: 0 <= cost <= total ==> PositionCost(total, FairPrice(cost, total)) == cost {
      PricesClimb(total, total);
      RoundedUnique(HalfEven, total * QTY_PRICE_TO_MONEY, total, QTY_PRICE_TO_MONEY);
      assert false;
    }
  }

  lemma {:induction false} PricesClimb(total: int, cost: nat)
    requires 0 < total && cost <= total
    requires forall c :: 0 <= c <= total ==> PositionCost(total, FairPrice(c, total)) == c
    ensures FairPrice(cost, total) >= cost
  {
    hide RoundDiv;
    if cost == 0 {
      RoundedUnique(HalfEven, 0, total, 0);
    } else {
      PricesClimb(total, cost - 1);
      assert PositionCost(total, FairPrice(cost, total)) == cost;
      assert PositionCost(total, FairPrice(cost - 1, total)) == cost - 1;
      HalfEvenMonotone((cost - 1) * QTY_PRICE_TO_MONEY, cost * QTY_PRICE_TO_MONEY, total);
    }
  }

  /** The sharp threshold: every cost of a position is rebuilt exactly iff it holds at most 10,000 shares. */
  lemma RebuiltExactlyUpTo(total: int)
    requires total > 0
    ensures (forall cost :: PositionCost(total, FairPrice(cost, total)) == cost) <==> total <= QTY_PRICE_TO_MONEY
  {
    if total <= QTY_PRICE_TO_MONEY {
      forall cost
        ensures PositionCost(total, FairPrice(cost, total)) == cost
      {
        CostRebuilt(cost, total);
      }
    } else {
      CostLost(total);
    }
  }

  datatype Purchase = Purchase(qty: int, cost: int)

  function TotalQty(ps: seq<Purchase>): int {
    if ps == [] then 0 else TotalQty(ps[..|ps| - 1]) + ps[|ps| - 1].qty
  }

  function TotalCost(ps: seq<Purchase>): int {
    if ps == [] then 0 else TotalCost(ps[..|ps| - 1]) + ps[|ps| - 1].cost
  }

  /** The price stored after the purchases, made one by one into an empty position. */
  function StoredPrice(ps: seq<Purchase>): int {
    if ps == [] then 0
    else
      var init, last := ps[..|ps| - 1], ps[|ps| - 1];
      AveragePrice(TotalQty(init), StoredPrice(init), last.qty, last.cost)
  }

  lemma {:induction false} TotalPositive(ps: seq<Purchase>)
    requires forall i :: 0 <= i < |ps| ==> ps[i].qty > 0
    ensures TotalQty(ps) >= |ps|
  {
    if ps != [] {
      TotalPositive(ps[..|ps| - 1]);
    }
  }

  /** No drift: after any purchases totalling at most 10,000 shares, the stored price is the exact total cost
      over the exact total quantity, rounded once. */
  lemma {:induction false} NoDrift(ps: seq<Purchase>)
    requires ps != [] && forall i :: 0 <= i < |ps| ==> ps[i].qty > 0
    requires TotalQty(ps) <= QTY_PRICE_TO_MONEY
    ensures TotalQty(ps) > 0 && StoredPrice(ps) == FairPrice(TotalCost(ps), TotalQty(ps))
    decreases |ps|
  {
    hide MulDiv;
    var init := ps[..|ps| - 1];
    TotalPositive(ps);
    TotalPositive(init);
    if init == [] {
      EmptyCost();
    } else {
      NoDrift(init);
      CostRebuilt(TotalCost(init), TotalQty(init));
    }
  }

  lemma EmptyCost()
    ensures PositionCost(0, 0) == 0
  {
  }

  // ---------------------------------------------------------------- splits create nothing

  /** Cut to whole shares or kept whole, a scaled non-negative quantity loses less than one raw unit. */
  lemma ScaledBound(qty: int, num: int, den: int)
    requires qty >= 0 && num > 0 && den > 0
    ensures 0 <= ScaleKeep(qty, num, den) && ScaleKeep(qty, num, den) * den <= qty * num
    ensures qty * num < ScaleKeep(qty, num, den) * den + den
    ensures var s := ScaleTrunc(qty, num, den);
            && s.whole + s.leftover == ScaleKeep(qty, num, den)
            && 0 <= s.leftover < ONE_SHARE && 0 <= s.whole && s.whole % ONE_SHARE == 0
  {
    hide RoundDiv;
    assert qty * num >= 0;
    Rounded(TowardZero, qty * num, den);
    var total := ScaleKeep(qty, num, den);
    if total < 0 {
      MulLe(total, -1, den);
      assert false;
    }
    assert total == total / ONE_SHARE * ONE_SHARE + total % ONE_SHARE;
  }

  /** Where the scaling is exact, quantity times price moves by at most half the new quantity in raw units. */
  lemma ValueKept(qty: int, price: int, num: int, den: int, newQty: int)
    requires num > 0 && den > 0 && newQty >= 0 && newQty * den == qty * num
    ensures var moved := newQty * ScalePrice(price, num, den) - qty * price;
            -newQty <= 2 * moved <= newQty
  {
    hide RoundDiv;
    var p := ScalePrice(price, num, den);
    Rounded(HalfEven, price * den, num);
    ValueIdentity(qty, price, num, den, newQty, p);
    HalfBound(newQty, newQty * p - qty * price, price * den - p * num, num);
  }

  lemma HalfBound(n: int, moved: int, e: int, num: int)
    requires n >= 0 && num > 0 && moved * num == -(n * e) && -num <= 2 * e <= num
    ensures -n <= 2 * moved <= n
  {
    ScaleBoth(n, 2 * e, num);
    assert n * (2 * e) == 2 * (n * e);
    assert (2 * moved) * num == 2 * (moved * num);
    Gap(n, 2 * moved, num);
    Gap(2 * moved, -n, num);
  }

  lemma ValueIdentity(qty: int, price: int, num: int, den: int, newQty: int, p: int)
    requires newQty * den == qty * num
    ensures (newQty * p - qty * price) * num == -(newQty * (price * den - p * num))
  {
    assert qty * price * num == newQty * den * price;
    assert newQty * (price * den) - newQty * (p * num) == newQty * (price * den - p * num);
  }

  lemma ScaleBoth(a: int, x: int, d: int)
    requires a >= 0 && -d <= x <= d
    ensures -(a * d) <= a * x <= a * d
  {
    assert a * (d - x) >= 0 && a * (x + d) >= 0;
  }
}
