/** The end-of-day anchors: sums over the whole books that no single figure can change without being noticed. */
module Anchors {
  import opened Bytes
  import opened Status
  import opened Ledgers
  import opened Applying

  predicate OneOff(t: Three, u: Three, x: int) {
    u == t.(d0 := t.d0 + x) || u == t.(d1 := t.d1 + x) || u == t.(d2 := t.d2 + x)
  }

  /** Two positions that differ in one figure, whichever it is, by `x`. */
  predicate OneFigureOff(b: Balances, c: Balances, x: int) {
    || c == b.(available := b.available + x) || c == b.(blocked := b.blocked + x)
    || c == b.(leftovers := b.leftovers + x) || c == b.(overdueBuy := b.overdueBuy + x)
    || c == b.(overdueSell := b.overdueSell + x) || c == b.(avgPrice := b.avgPrice + x)
    || (c == b.(pendingBuy := c.pendingBuy) && OneOff(b.pendingBuy, c.pendingBuy, x))
    || (c == b.(pendingSell := c.pendingSell) && OneOff(b.pendingSell, c.pendingSell, x))
  }

  /** Two accounts that differ in one figure. */
  predicate OneSumOff(m: Funds, n: Funds, x: int) {
    || n == m.(cash := m.cash + x) || n == m.(overdue := m.overdue + x) || n == m.(income := m.income + x)
    || (n == m.(pending := n.pending) && OneOff(m.pending, n.pending, x))
  }

  lemma FigureShows(b: Balances, c: Balances, x: int)
    requires OneFigureOff(b, c, x)
    ensures BalancesSum(c) == BalancesSum(b) + x
  {
  }

  lemma SumShows(m: Funds, n: Funds, x: int)
    requires OneSumOff(m, n, x)
    ensures AllMoney(n) == AllMoney(m) + x
  {
  }

  lemma {:induction false} CustodyShows(rows: seq<Position>, i: nat, b: Balances)
    requires i < |rows|
    ensures CustodySum(rows[i := rows[i].(b := b)]) == CustodySum(rows) + BalancesSum(b) - BalancesSum(rows[i].b)
    decreases |rows|
  {
    var n, more := |rows| - 1, rows[i := rows[i].(b := b)];
    if i == n {
      assert more[..n] == rows[..n];
    } else {
      CustodyShows(rows[..n], i, b);
      assert more[..n] == rows[..n][i := rows[i].(b := b)];
    }
  }

  lemma {:induction false} CashShows(rows: seq<Account>, i: nat, m: Funds)
    requires i < |rows|
    ensures CashSum(rows[i := rows[i].(m := m)]) == CashSum(rows) + AllMoney(m) - AllMoney(rows[i].m)
    decreases |rows|
  {
    var n, more := |rows| - 1, rows[i := rows[i].(m := m)];
    if i == n {
      assert more[..n] == rows[..n];
    } else {
      CashShows(rows[..n], i, m);
      assert more[..n] == rows[..n][i := rows[i].(m := m)];
    }
  }

  const WRAP := 0x1_0000_0000_0000_0000

  lemma WrapsAlike(a: int, x: int)
    requires (a + x) % WRAP == a % WRAP
    ensures x % WRAP == 0
  {
    assert x == WRAP * ((a + x) / WRAP - a / WRAP);
  }

  lemma WrapsDiffer(a: int, x: int)
    requires x % WRAP != 0
    ensures (a + x) % WRAP != a % WRAP
  {
    if (a + x) % WRAP == a % WRAP {
      WrapsAlike(a, x);
    }
  }

  /** Anchors are corruption when one of them is given and one of them differs. */
  lemma Offered(d: Ledger, custodySum: U64, cashSum: U64)
    requires WellFormed(d)
    ensures Dispatch(d, EodMarked(custodySum, cashSum, false)).st == StateCorrupt
       <==> && (custodySum != 0 || cashSum != 0)
            && (CustodySum(d.custody) % WRAP != custodySum || CashSum(d.accounts) % WRAP != cashSum)
  {
    hide WellFormed, CustodySum, CashSum;
  }

  /** The anchors of the books are what they add up to, and with them the day ends well. */
  function AnchorsOf(d: Ledger): Event {
    EodMarked(CustodySum(d.custody) % WRAP, CashSum(d.accounts) % WRAP, false)
  }

  lemma OwnAnchorsHold(d: Ledger)
    requires WellFormed(d)
    ensures Dispatch(d, AnchorsOf(d)).st == Ok && Dispatch(d, AnchorsOf(d)).d == d
  {
    hide WellFormed, CustodySum, CashSum;
  }

  /** The anchors of one ledger, offered to another with one figure of one position changed, by less than 2^64: it is
      corruption, unless both anchors are zero, which stands for none. */
  lemma PositionNoticed(d: Ledger, i: nat, c: Balances, x: int)
    requires WellFormed(d) && i < |d.custody| && OneFigureOff(d.custody[i].b, c, x) && x % WRAP != 0
    ensures var e, anchors := SetBalances(d, i, c), AnchorsOf(d);
            Dispatch(e, anchors).st == StateCorrupt <==> anchors.custodySum != 0 || anchors.cashSum != 0
  {
    hide WellFormed, CustodySum, CashSum, BalancesSum, OneFigureOff, Dispatch;
    FigureShows(d.custody[i].b, c, x);
    CustodyShows(d.custody, i, c);
    WrapsDiffer(CustodySum(d.custody), x);
    var anchors := AnchorsOf(d);
    Offered(SetBalances(d, i, c), anchors.custodySum, anchors.cashSum);
  }

  /** And with one figure of one account changed. */
  lemma AccountNoticed(d: Ledger, i: nat, n: Funds, x: int)
    requires WellFormed(d) && i < |d.accounts| && OneSumOff(d.accounts[i].m, n, x) && x % WRAP != 0
    ensures var e, anchors := SetFunds(d, i, n), AnchorsOf(d);
            Dispatch(e, anchors).st == StateCorrupt <==> anchors.custodySum != 0 || anchors.cashSum != 0
  {
    hide WellFormed, CustodySum, CashSum, AllMoney, OneSumOff, Dispatch;
    SumShows(d.accounts[i].m, n, x);
    CashShows(d.accounts, i, n);
    WrapsDiffer(CashSum(d.accounts), x);
    var anchors := AnchorsOf(d);
    Offered(SetFunds(d, i, n), anchors.custodySum, anchors.cashSum);
  }
}
