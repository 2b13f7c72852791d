/** What an accepted event leaves in the books, in figures: told without the functions that compute them. */
module Figures {
  import opened Bytes
  import opened Status
  import opened Rounding
  import opened Calendar
  import opened Ledgers
  import opened Applying
  import opened Footprints
  import LedgerLaws

  // ---------------------------------------------------------------- vocabulary

  /** What falls due on a date of the window. */
  function Owed(w: Window, date: Date, t: Three): int {
    if w.d0 == date then t.d0 else if w.d1 == date then t.d1 else if w.d2 == date then t.d2 else 0
  }

  /** What falls due on a date moves by `x`, and on no other. */
  predicate OnDate(w: Window, date: Date, t: Three, u: Three, x: int) {
    if w.d0 == date then u == t.(d0 := t.d0 + x)
    else if w.d1 == date then u == t.(d1 := t.d1 + x)
    else w.d2 == date && u == t.(d2 := t.d2 + x)
  }

  predicate InWindow(w: Window, date: Date) {
    date == w.d0 || date == w.d1 || date == w.d2
  }

  /** All that falls due on a date, should the window name it twice. */
  function Falling(w: Window, date: Date, t: Three): int {
    (if w.d0 == date then t.d0 else 0) + (if w.d1 == date then t.d1 else 0) + (if w.d2 == date then t.d2 else 0)
  }

  /** Every date takes along what falls due on it; what falls due on a date the new window lacks is overdue. */
  predicate Carried(w: Window, to: Window, t: Three, u: Three, overdue: int) {
    && u.d0 == Falling(w, to.d0, t)
    && u.d1 == (if to.d1 == to.d0 then 0 else Falling(w, to.d1, t))
    && u.d2 == (if to.d2 == to.d0 || to.d2 == to.d1 then 0 else Falling(w, to.d2, t))
    && overdue == (if InWindow(to, w.d0) then 0 else t.d0) + (if InWindow(to, w.d1) then 0 else t.d1)
                  + (if InWindow(to, w.d2) then 0 else t.d2)
  }

  /** The price of `qty` shares after `add` more that cost `cost`: the cost of the first rebuilt from their price, the
      two costs together over all the shares, each rounded once, half to even. */
  ghost predicate Averaged(qty: int, price: int, add: int, cost: int, after: int) {
    if qty + add <= 0 then after == 0
    else
      exists c :: IsRounded(HalfEven, qty * price, QTY_PRICE_TO_MONEY, c)
                  && IsRounded(HalfEven, (c + cost) * QTY_PRICE_TO_MONEY, qty + add, after)
  }

  lemma IsAveraged(qty: int, price: int, add: int, cost: int)
    ensures Averaged(qty, price, add, cost, AveragePrice(qty, price, add, cost))
  {
    hide RoundDiv;
    if qty + add > 0 {
      var c := PositionCost(qty, price);
      Rounded(HalfEven, qty * price, QTY_PRICE_TO_MONEY);
      Rounded(HalfEven, (c + cost) * QTY_PRICE_TO_MONEY, qty + add);
    }
  }

  /** The part of a quantity that is whole shares. */
  predicate WholePart(x: int, whole: int) {
    && whole % ONE_SHARE == 0 && -ONE_SHARE < x - whole < ONE_SHARE
    && (x >= 0 ==> whole <= x) && (x <= 0 ==> x <= whole)
  }

  /** A quantity in the proportion `num` for `den`, a fraction of a raw unit cut off, and its whole shares. */
  ghost predicate CutToShares(x: int, num: nat, den: nat, whole: int, rest: int) {
    IsRounded(TowardZero, x * num, den, whole + rest) && WholePart(whole + rest, whole)
  }

  lemma IsCut(x: int, num: nat, den: nat)
    requires den > 0
    ensures CutToShares(x, num, den, ScaleTrunc(x, num, den).whole, ScaleTrunc(x, num, den).leftover)
  {
    hide RoundDiv;
    Rounded(TowardZero, x * num, den);
    var total := MulDiv(TowardZero, x, num, den);
    IsWhole(total);
  }

  lemma IsWhole(x: int)
    ensures WholePart(x, TruncDiv(x, ONE_SHARE) * ONE_SHARE)
  {
    TruncParts(x, ONE_SHARE);
  }

  // ---------------------------------------------------------------- a trade is struck

  /** A purchase is owed to its owner, a sale leaves what is free; the money falls due on the same date, the fees added
      to what is paid and taken off what is received. */
  ghost predicate ExecutionTold(w: Window, factor: nat, x: Execution, mine: bool, b: Balances, m: Funds, c: Balances,
                                n: Funds) {
    && n == m.(pending := n.pending)
    && (exists gross :: IsRounded(HalfEven, x.qty * x.price, QTY_PRICE_TO_MONEY * factor, gross)
                        && OnDate(w, x.date, m.pending, n.pending,
                                  if x.side == 1 then -gross - TotalFees(x.fees) else gross - TotalFees(x.fees)))
    && if !mine then c == b
       else if x.side == 1 then
         c == b.(pendingBuy := c.pendingBuy) && OnDate(w, x.date, b.pendingBuy, c.pendingBuy, x.qty)
       else
         && c == b.(available := b.available - x.qty, pendingSell := c.pendingSell,
                    shortAllowed := b.shortAllowed || x.shortFlag)
         && OnDate(w, x.date, b.pendingSell, c.pendingSell, x.qty)
  }

  /** Fees add up, in whatever pieces they are listed. */
  lemma {:induction false} FeesAddUp(xs: seq<int>, ys: seq<int>, x: int)
    ensures TotalFees([]) == 0 && TotalFees([x]) == x && TotalFees(xs + ys) == TotalFees(xs) + TotalFees(ys)
    decreases |xs|
  {
    if xs == [] {
      assert xs + ys == ys;
    } else {
      assert (xs + ys)[1..] == xs[1..] + ys;
      FeesAddUp(xs[1..], ys, x);
    }
    assert [x][1..] == [];
  }

  lemma ExecutionFigures(w: Window, factor: nat, x: Execution, mine: bool, b: Balances, m: Funds)
    requires SlotOf(w, x.date).InSlot? && factor > 0
    ensures var k := SlotOf(w, x.date).k;
            ExecutionTold(w, factor, x, mine, b, m,
                          if mine then ExecuteBalances(b, x.side == BUY, k, x.qty, x.shortFlag) else b,
                          m.(pending := Plus(m.pending, k, Amount(x, factor))))
  {
    hide RoundDiv, TotalFees;
    Rounded(HalfEven, x.qty * x.price, QTY_PRICE_TO_MONEY * factor);
    assert IsRounded(HalfEven, x.qty * x.price, QTY_PRICE_TO_MONEY * factor, Notional(x.qty, x.price, factor));
    hide IsRounded, Notional;
  }

  // ---------------------------------------------------------------- it changes hands

  ghost predicate AllocationTold(w: Window, a: Allocation, here: bool, doc: U64, b: Balances, m: Funds, c: Balances,
                                 n: Funds) {
    if a.from == a.to || (doc != a.from && doc != a.to) then c == b && n == m
    else
      var s := if doc == a.from then -1 else 1;
      && n == m.(pending := n.pending) && OnDate(w, a.date, m.pending, n.pending, s * a.cash)
      && if !here then c == b
         else if a.side == 1 then
           c == b.(pendingBuy := c.pendingBuy) && OnDate(w, a.date, b.pendingBuy, c.pendingBuy, s * a.qty)
         else
           && c == b.(available := b.available - s * a.qty, pendingSell := c.pendingSell)
           && OnDate(w, a.date, b.pendingSell, c.pendingSell, s * a.qty)
  }

  // ---------------------------------------------------------------- it settles, or does not

  /** Settled in full, what was due is delivered and paid, and a purchase enters the average price of all that is in
      custody, reserved shares included. Failed, it is overdue. Bought in, it is no longer overdue. */
  ghost predicate SettlementTold(w: Window, s: Settlement, b: Balances, m: Funds, c: Balances, n: Funds) {
    match s.outcome
    case UnknownOutcome => false
    case SettledInFull =>
      && n == m.(cash := m.cash + s.cash, pending := n.pending) && OnDate(w, s.date, m.pending, n.pending, -s.cash)
      && if s.side == 1 then
           && c == b.(pendingBuy := c.pendingBuy, available := b.available + s.qty, avgPrice := c.avgPrice)
           && Owed(w, s.date, b.pendingBuy) >= s.qty && OnDate(w, s.date, b.pendingBuy, c.pendingBuy, -s.qty)
           && Averaged(CustodyToday(b), b.avgPrice, s.qty, s.cost, c.avgPrice)
         else
           && c == b.(pendingSell := c.pendingSell)
           && Owed(w, s.date, b.pendingSell) >= s.qty && OnDate(w, s.date, b.pendingSell, c.pendingSell, -s.qty)
    case DeliveryFailure =>
      && n == m.(overdue := m.overdue + s.cash, pending := n.pending)
      && OnDate(w, s.date, m.pending, n.pending, -s.cash)
      && if s.side == 1 then
           && c == b.(pendingBuy := c.pendingBuy, overdueBuy := b.overdueBuy + s.qty)
           && Owed(w, s.date, b.pendingBuy) >= s.qty && OnDate(w, s.date, b.pendingBuy, c.pendingBuy, -s.qty)
         else
           && c == b.(pendingSell := c.pendingSell, overdueSell := b.overdueSell + s.qty)
           && Owed(w, s.date, b.pendingSell) >= s.qty && OnDate(w, s.date, b.pendingSell, c.pendingSell, -s.qty)
    case BoughtIn =>
      && n == m.(cash := m.cash + s.cash, overdue := m.overdue - s.cash)
      && if s.side == 1 then
           && c == b.(overdueBuy := b.overdueBuy - s.qty, available := b.available + s.qty) && b.overdueBuy >= s.qty
         else c == b.(overdueSell := b.overdueSell - s.qty) && b.overdueSell >= s.qty
  }

  lemma SettlementFigures(w: Window, s: Settlement, b: Balances, m: Funds)
    requires SettleBuckets(b, m, s, SlotOf(w, s.date)).Moves?
    ensures var r := SettleBuckets(b, m, s, SlotOf(w, s.date));
            SettlementTold(w, s, b, m, r.b, r.m)
  {
    hide Averaged, AveragePrice;
    IsAveraged(CustodyToday(b), b.avgPrice, s.qty, s.cost);
  }

  // ---------------------------------------------------------------- a corporate action

  ghost predicate ThreeScaled(t: Three, num: nat, den: nat, u: Three) {
    && IsRounded(TowardZero, t.d0 * num, den, u.d0) && IsRounded(TowardZero, t.d1 * num, den, u.d1)
    && IsRounded(TowardZero, t.d2 * num, den, u.d2)
  }

  /** What is owned keeps its whole shares, its fractions join the leftovers; what is in flight is scaled as it is; the
      price goes the other way. */
  ghost predicate SplitTold(b: Balances, num: nat, den: nat, c: Balances) {
    && c.shortAllowed == b.shortAllowed
    && ThreeScaled(b.pendingBuy, num, den, c.pendingBuy) && ThreeScaled(b.pendingSell, num, den, c.pendingSell)
    && IsRounded(TowardZero, b.overdueBuy * num, den, c.overdueBuy)
    && IsRounded(TowardZero, b.overdueSell * num, den, c.overdueSell)
    && IsRounded(HalfEven, b.avgPrice * den, num, c.avgPrice)
    && exists free, held, left :: CutToShares(b.available, num, den, c.available, free)
                                  && CutToShares(b.blocked, num, den, c.blocked, held)
                                  && IsRounded(TowardZero, b.leftovers * num, den, left)
                                  && c.leftovers == left + free + held
  }

  lemma IsSplit(b: Balances, num: nat, den: nat)
    requires num > 0 && den > 0
    ensures SplitTold(b, num, den, SplitBalances(b, num, den))
  {
    var c := SplitBalances(b, num, den);
    var free, held := ScaleTrunc(b.available, num, den).leftover, ScaleTrunc(b.blocked, num, den).leftover;
    var left := ScaleKeep(b.leftovers, num, den);
    hide RoundDiv, IsRounded, TruncDiv, WholePart;
    IsCut(b.available, num, den);
    IsCut(b.blocked, num, den);
    Rounded(HalfEven, b.avgPrice * den, num);
    Rounded(TowardZero, b.leftovers * num, den);
    Rounded(TowardZero, b.overdueBuy * num, den);
    Rounded(TowardZero, b.overdueSell * num, den);
    IsScaled(b.pendingBuy, num, den);
    IsScaled(b.pendingSell, num, den);
    hide ThreeScaled, ScaleThree;
    assert c.leftovers == left + free + held;
    hide CutToShares;
    assert CutToShares(b.available, num, den, c.available, free) && CutToShares(b.blocked, num, den, c.blocked, held);
  }

  lemma IsScaled(t: Three, num: nat, den: nat)
    requires den > 0
    ensures ThreeScaled(t, num, den, ScaleThree(t, num, den))
  {
    hide RoundDiv, IsRounded;
    Rounded(TowardZero, t.d0 * num, den);
    Rounded(TowardZero, t.d1 * num, den);
    Rounded(TowardZero, t.d2 * num, den);
  }

  /** The price after shares granted at a cost per share. */
  ghost predicate Granted(qty: int, price: int, gained: int, unitCost: int, after: int) {
    exists cost :: IsRounded(HalfEven, gained * unitCost, ONE_SHARE, cost) && Averaged(qty, price, gained, cost, after)
  }

  /** A bonus adds whole shares of what is in custody at the cost given per share; a subscription adds what is taken up,
      no more than the rights, at what is paid; an auction sells the leftovers. Tax withheld comes off income. */
  ghost predicate ActionTold(a: Action, b: Balances, m: Funds, c: Balances, n: Funds) {
    match a.kind
    case UnknownAction => false
    case Split =>
      a.num > 0 && a.den > 0 && SplitTold(b, a.num, a.den, c) && n == m.(income := m.income - a.withheld)
    case ReverseSplit =>
      a.num > 0 && a.den > 0 && SplitTold(b, a.num, a.den, c) && n == m.(income := m.income - a.withheld)
    case Bonus =>
      && a.num > 0 && a.den > 0 && n == m.(income := m.income - a.withheld)
      && c == b.(available := c.available, leftovers := c.leftovers, avgPrice := c.avgPrice)
      && var gained := c.available - b.available;
      && gained >= 0
      && CutToShares(CustodyToday(b), a.num, a.den, CustodyToday(b) + gained, c.leftovers - b.leftovers)
      && Granted(CustodyToday(b), b.avgPrice, gained, a.unitCost, c.avgPrice)
    case Subscription =>
      && a.qtyDelta >= 0 && n == m.(cash := m.cash - a.cashDelta, income := m.income - a.withheld)
      && c == b.(available := b.available + a.qtyDelta, avgPrice := c.avgPrice)
      && (a.num > 0 && a.den > 0 ==>
            exists rights, rest ::
              CutToShares(CustodyToday(b), a.num, a.den, rights, rest) && a.qtyDelta <= rights)
      && Averaged(CustodyToday(b), b.avgPrice, a.qtyDelta, a.cashDelta, c.avgPrice)
    case LeftoversAuction =>
      n == m.(cash := m.cash + a.cashDelta, income := m.income - a.withheld) && c == b.(leftovers := 0)
  }

  lemma ActionFigures(a: Action, b: Balances, m: Funds)
    requires ActionError(a) == Ok && ActionBuckets(b, a).Acts?
    ensures var r := ActionBuckets(b, a);
            ActionTold(a, b, m, r.b, m.(cash := m.cash + r.cash, income := m.income - a.withheld))
  {
    match a.kind
    case Bonus => BonusFigures(a, b, m);
    case Subscription => SubscriptionFigures(a, b, m);
    case LeftoversAuction =>
    case _ =>
      hide SplitTold, SplitBalances;
      IsSplit(b, a.num, a.den);
  }

  lemma BonusFigures(a: Action, b: Balances, m: Funds)
    requires a.kind == Bonus && ActionError(a) == Ok && ActionBuckets(b, a).Acts?
    ensures ActionTold(a, b, m, ActionBuckets(b, a).b, m.(income := m.income - a.withheld))
    ensures ActionBuckets(b, a).cash == 0
  {
    hide RoundDiv, IsRounded, Averaged, AveragePrice, CutToShares, ScaleTrunc;
    var s := ScaleTrunc(CustodyToday(b), a.num, a.den);
    var c, gained := ActionBuckets(b, a).b, s.whole - CustodyToday(b);
    var cost := MulDiv(HalfEven, gained, a.unitCost, ONE_SHARE);
    IsCut(CustodyToday(b), a.num, a.den);
    Rounded(HalfEven, gained * a.unitCost, ONE_SHARE);
    IsAveraged(CustodyToday(b), b.avgPrice, gained, cost);
    assert IsRounded(HalfEven, gained * a.unitCost, ONE_SHARE, cost);
    assert Granted(CustodyToday(b), b.avgPrice, gained, a.unitCost, c.avgPrice);
    hide Granted, CustodyToday;
    assert c.available - b.available == gained && c.leftovers - b.leftovers == s.leftover;
  }

  lemma SubscriptionFigures(a: Action, b: Balances, m: Funds)
    requires a.kind == Subscription && ActionError(a) == Ok && ActionBuckets(b, a).Acts?
    ensures ActionTold(a, b, m, ActionBuckets(b, a).b,
                       m.(cash := m.cash - a.cashDelta, income := m.income - a.withheld))
    ensures ActionBuckets(b, a).cash == -a.cashDelta
  {
    hide RoundDiv, IsRounded, Averaged, AveragePrice, CutToShares, ScaleTrunc;
    IsAveraged(CustodyToday(b), b.avgPrice, a.qtyDelta, a.cashDelta);
    if a.num > 0 && a.den > 0 {
      var s := ScaleTrunc(CustodyToday(b), a.num, a.den);
      IsCut(CustodyToday(b), a.num, a.den);
      assert CutToShares(CustodyToday(b), a.num, a.den, s.whole, s.leftover);
    }
  }

  // ---------------------------------------------------------------- income and days

  /** Accrued, income is receivable; paid, what was receivable is cash. */
  predicate IncomeTold(p: Dividend, m: Funds, n: Funds) {
    if p.accrued then n == m.(income := m.income + p.net)
    else n == m.(income := m.income - p.net, cash := m.cash + p.net)
  }

  ghost predicate DayTold(w: Window, to: Window, b: Balances, m: Funds, c: Balances, n: Funds) {
    && c == b.(pendingBuy := c.pendingBuy, pendingSell := c.pendingSell, overdueBuy := c.overdueBuy,
               overdueSell := c.overdueSell)
    && n == m.(pending := n.pending, overdue := n.overdue)
    && Carried(w, to, b.pendingBuy, c.pendingBuy, c.overdueBuy - b.overdueBuy)
    && Carried(w, to, b.pendingSell, c.pendingSell, c.overdueSell - b.overdueSell)
    && Carried(w, to, m.pending, n.pending, n.overdue - m.overdue)
  }

  lemma IsCarried(t: Three, w: Window, to: Window)
    ensures Carried(w, to, t, Turn(t, w, to).kept, Turn(t, w, to).out)
  {
    var a := TurnOne(Turned(NOTHING, 0), t.d0, SlotOf(to, w.d0));
    var b := TurnOne(a, t.d1, SlotOf(to, w.d1));
    IsTurned(Turned(NOTHING, 0), t.d0, to, w.d0);
    IsTurned(a, t.d1, to, w.d1);
    IsTurned(b, t.d2, to, w.d2);
    hide TurnOne, SlotOf;
  }

  /** One slot lands on its date, or falls out. */
  lemma IsTurned(acc: Turned, x: int, to: Window, date: Date)
    ensures var r := TurnOne(acc, x, SlotOf(to, date));
            && r.kept.d0 == acc.kept.d0 + (if to.d0 == date then x else 0)
            && r.kept.d1 == acc.kept.d1 + (if to.d0 != date && to.d1 == date then x else 0)
            && r.kept.d2 == acc.kept.d2 + (if to.d0 != date && to.d1 != date && to.d2 == date then x else 0)
            && r.out == acc.out + (if InWindow(to, date) then 0 else x)
  {
  }

  lemma DayFigures(w: Window, to: Window, b: Balances, m: Funds)
    ensures DayTold(w, to, b, m, RotateBalances(b, w, to), RotateFunds(m, w, to))
  {
    hide Turn, Carried;
    IsCarried(b.pendingBuy, w, to);
    IsCarried(b.pendingSell, w, to);
    IsCarried(m.pending, w, to);
  }

  // ---------------------------------------------------------------- any event, any owner

  /** The whole of what an event that reached the books says about one owner and one instrument. */
  ghost predicate Told(d: Ledger, e: Event, doc: U64, inst: U32, b: Balances, m: Funds, c: Balances, n: Funds)
    requires WellFormed(d)
  {
    match e
    case DayOpened(today, d1, d2, _) => DayTold(d.window, Window(today, d1, d2), b, m, c, n)
    case TradeExecuted(x) =>
      if x.account != doc then c == b && n == m
      else
        FactorOf(d, x.instrument) > 0
        && ExecutionTold(d.window, FactorOf(d, x.instrument), x, x.instrument == inst, b, m, c, n)
    case TradeAllocated(a) =>
      a.trade in d.tradeIndex && AllocationTold(d.window, a, TradeInstrument(d, a.trade) == inst, doc, b, m, c, n)
    case TradeSettled(s) =>
      if s.account != doc then c == b && n == m
      else if s.instrument == inst then SettlementTold(d.window, s, b, m, c, n)
      else c == b
    case CorporateActionApplied(a) =>
      if a.account != doc then c == b && n == m
      else if a.instrument == inst then ActionTold(a, b, m, c, n)
      else c == b
    case DividendPaid(p) => c == b && if p.account != doc then n == m else IncomeTold(p, m, n)
    case _ => c == b && n == m
  }

  /** The books after any event, of any owner in any instrument: what was said of it if it reached them, and what they
      were before if it did not. */
  lemma BooksTold(d: Ledger, e: Event, doc: U64, inst: U32)
    requires WellFormed(d)
    ensures var r := Dispatch(d, e);
            var b, m := BalancesOf(d, doc, inst), FundsOf(d, doc);
            var c, n := BalancesOf(r.d, doc, inst), FundsOf(r.d, doc);
            if Mutated(e, r.st) then Told(d, e, doc, inst, b, m, c, n) else c == b && n == m
  {
    hide WellFormed, BalancesOf, FundsOf, FactorOf, TradeInstrument, RotateBalances, RotateFunds, SettleBuckets, Amount;
    hide ApplyTradeExecuted, ApplyTradeAllocated, ApplyTradeSettled, ApplyCorporateAction, ApplyBatchNetted, Reconciled;
    hide ApplyDayOpened, ApplyDividendPaid, ApplyClosingPrice, ActionBuckets, ActionError, ExecuteBalances;
    hide ExecutionTold, SettlementTold, ActionTold, DayTold, AllocationTold;
    Effect(d, e, doc, inst);
    if Mutated(e, Dispatch(d, e).st) {
      var b, m := BalancesOf(d, doc, inst), FundsOf(d, doc);
      match e
      case DayOpened(today, d1, d2, _) => DayFigures(d.window, Window(today, d1, d2), b, m);
      case TradeExecuted(x) =>
        LedgerLaws.ExecutedGuard(d, x);
        ExecutionFigures(d.window, FactorOf(d, x.instrument), x, x.instrument == inst, b, m);
      case TradeAllocated(a) => AllocationFigures(d, a, doc, inst);
      case TradeSettled(s) =>
        LedgerLaws.SettledGuard(d, s);
        if s.account == doc && s.instrument == inst {
          SettlementFigures(d.window, s, b, m);
        }
      case CorporateActionApplied(a) =>
        LedgerLaws.ActionGuard(d, a);
        if a.account == doc && a.instrument == inst {
          ActionFigures(a, b, m);
        }
      case _ =>
    }
  }

  lemma AllocationFigures(d: Ledger, a: Allocation, doc: U64, inst: U32)
    requires WellFormed(d) && Mutated(TradeAllocated(a), ApplyTradeAllocated(d, a).st)
    ensures a.trade in d.tradeIndex
    ensures AllocationTold(d.window, a, TradeInstrument(d, a.trade) == inst, doc, BalancesOf(d, doc, inst),
                           FundsOf(d, doc), BalancesAfter(d, TradeAllocated(a), doc, inst),
                           FundsAfter(d, TradeAllocated(a), doc))
  {
    hide WellFormed, BalancesOf, FundsOf, FactorOf, TradeInstrument, ApplyTradeAllocated;
    LedgerLaws.AllocatedGuard(d, a);
    hide AllocationError;
  }
}
