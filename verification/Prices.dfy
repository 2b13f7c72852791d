/** The average price of a position: what moves it, and that it does not drift. */
module Prices {
  import opened Bytes
  import opened Status
  import opened Rounding
  import opened Ledgers
  import opened Applying
  import opened Footprints
  import opened Figures

  // ---------------------------------------------------------------- what moves a price

  /** A purchase of this owner's in this instrument, delivered and paid. */
  predicate Delivers(e: Event, doc: U64, inst: U32) {
    e.TradeSettled? && e.s.account == doc && e.s.instrument == inst && e.s.outcome == SettledInFull && e.s.side == 1
  }

  predicate ActsOn(e: Event, doc: U64, inst: U32) {
    e.CorporateActionApplied? && e.c.account == doc && e.c.instrument == inst
  }

  /** A price moves when a purchase is delivered in full, or by a corporate action; by nothing else. */
  lemma PriceMovesOnly(d: Ledger, e: Event, doc: U64, inst: U32)
    requires WellFormed(d) && !ActsOn(e, doc, inst)
    requires Delivers(e, doc, inst) ==> Dispatch(d, e).st != Ok && Dispatch(d, e).st != StateCorrupt
    ensures BalancesOf(Dispatch(d, e).d, doc, inst).avgPrice == BalancesOf(d, doc, inst).avgPrice
  {
    hide WellFormed, BalancesOf, FundsOf, FactorOf, TradeInstrument, Dispatch, OnDate, Owed, Carried, Averaged;
    BooksTold(d, e, doc, inst);
  }

  /** A purchase delivered enters the average of all that is in custody, what is reserved for sales included. */
  lemma DeliveryAverages(d: Ledger, e: Event, doc: U64, inst: U32)
    requires WellFormed(d) && Delivers(e, doc, inst) && Dispatch(d, e).st == Ok
    ensures var b, c := BalancesOf(d, doc, inst), BalancesOf(Dispatch(d, e).d, doc, inst);
            && Averaged(CustodyToday(b), b.avgPrice, e.s.qty, e.s.cost, c.avgPrice)
            && CustodyToday(c) == CustodyToday(b) + e.s.qty
  {
    hide WellFormed, BalancesOf, FundsOf, Dispatch, Averaged;
    BooksTold(d, e, doc, inst);
  }

  // ---------------------------------------------------------------- splits keep the value

  predicate Splits(e: Event) {
    e.CorporateActionApplied? && (e.c.kind == Split || e.c.kind == ReverseSplit)
  }

  /** A split moves the price against the quantity; where the quantity scales exactly, what the position is worth moves
      by at most half the new quantity, in raw units. */
  lemma SplitKeepsValue(d: Ledger, e: Event)
    requires WellFormed(d) && Splits(e) && Dispatch(d, e).st == Ok
    ensures var b, c := BalancesOf(d, e.c.account, e.c.instrument),
                        BalancesOf(Dispatch(d, e).d, e.c.account, e.c.instrument);
            && e.c.num > 0 && e.c.den > 0 && IsRounded(HalfEven, b.avgPrice * e.c.den, e.c.num, c.avgPrice)
            && SplitTold(b, e.c.num, e.c.den, c)
            && (CustodyToday(c) >= 0 && CustodyToday(c) * e.c.den == CustodyToday(b) * e.c.num ==>
                  -CustodyToday(c) <= 2 * (CustodyToday(c) * c.avgPrice - CustodyToday(b) * b.avgPrice)
                                   <= CustodyToday(c))
  {
    hide WellFormed, BalancesOf, FundsOf, Dispatch, CustodyToday;
    var b, c := BalancesOf(d, e.c.account, e.c.instrument), BalancesOf(Dispatch(d, e).d, e.c.account, e.c.instrument);
    Splitting(d, e, b, c);
    if CustodyToday(c) >= 0 && CustodyToday(c) * e.c.den == CustodyToday(b) * e.c.num {
      RoundedUnique(HalfEven, b.avgPrice * e.c.den, e.c.num, c.avgPrice);
      ValueKept(CustodyToday(b), b.avgPrice, e.c.num, e.c.den, CustodyToday(c));
    }
  }

  lemma Splitting(d: Ledger, e: Event, b: Balances, c: Balances)
    requires WellFormed(d) && Splits(e) && Dispatch(d, e).st == Ok && b == BalancesOf(d, e.c.account, e.c.instrument)
    requires c == BalancesOf(Dispatch(d, e).d, e.c.account, e.c.instrument)
    ensures e.c.num > 0 && e.c.den > 0 && SplitTold(b, e.c.num, e.c.den, c)
    ensures IsRounded(HalfEven, b.avgPrice * e.c.den, e.c.num, c.avgPrice)
  {
    hide WellFormed, BalancesOf, FundsOf, Dispatch, IsRounded, CutToShares, ThreeScaled;
    BooksTold(d, e, e.c.account, e.c.instrument);
  }

  // ---------------------------------------------------------------- no drift, over whole runs

  /** The purchases a run delivers to an owner. */
  function Bought(d: Ledger, lsn: nat, es: seq<Event>, doc: U64, inst: U32): seq<Purchase>
    requires WellFormed(d)
    decreases |es|
  {
    if es == [] then []
    else
      var a := Apply(d, lsn, es[0]);
      if IsFatal(a.st) then []
      else
        (if a.st == Ok && Delivers(es[0], doc, inst) then [Purchase(es[0].s.qty, es[0].s.cost)] else [])
        + Bought(a.d, lsn + 1, es[1..], doc, inst)
  }

  /** Nothing leaves the position and no action changes it: sales may be struck, fail and be pending, but not settle. */
  predicate OnlyBuys(e: Event, doc: U64, inst: U32) {
    && !ActsOn(e, doc, inst)
    && (e.TradeSettled? && e.s.account == doc && e.s.instrument == inst ==>
          e.s.outcome == DeliveryFailure || (Delivers(e, doc, inst) && e.s.qty > 0))
  }

  /** What is in custody changes only as purchases are delivered. */
  lemma CustodyMovesOnly(d: Ledger, e: Event, doc: U64, inst: U32)
    requires WellFormed(d) && OnlyBuys(e, doc, inst) && !IsFatal(Dispatch(d, e).st)
    requires !(Delivers(e, doc, inst) && Dispatch(d, e).st == Ok)
    ensures CustodyToday(BalancesOf(Dispatch(d, e).d, doc, inst)) == CustodyToday(BalancesOf(d, doc, inst))
  {
    hide WellFormed, BalancesOf, FundsOf, FactorOf, TradeInstrument, Dispatch, Averaged, ActionTold, Carried;
    BooksTold(d, e, doc, inst);
    if e.DayOpened? && Dispatch(d, e).st == Ok {
      var b, c := BalancesOf(d, doc, inst), BalancesOf(Dispatch(d, e).d, doc, inst);
      CarriedSum(d.window, Window(e.today, e.d1, e.d2), b.pendingSell, c.pendingSell, c.overdueSell - b.overdueSell);
    }
  }

  lemma CarriedSum(w: Window, to: Window, t: Three, u: Three, overdue: int)
    requires Carried(w, to, t, u, overdue)
    ensures Sum(u) + overdue == Sum(t)
  {
  }

  lemma AveragedUnique(qty: int, price: int, add: int, cost: int, after: int)
    requires Averaged(qty, price, add, cost, after)
    ensures after == AveragePrice(qty, price, add, cost)
  {
    hide RoundDiv, IsRounded;
    if qty + add > 0 {
      var c :| IsRounded(HalfEven, qty * price, QTY_PRICE_TO_MONEY, c)
               && IsRounded(HalfEven, (c + cost) * QTY_PRICE_TO_MONEY, qty + add, after);
      RoundedUnique(HalfEven, qty * price, QTY_PRICE_TO_MONEY, c);
      RoundedUnique(HalfEven, (c + cost) * QTY_PRICE_TO_MONEY, qty + add, after);
    }
  }

  /** The position is what these purchases, and no others, left. */
  ghost predicate BuiltBy(d: Ledger, doc: U64, inst: U32, ps: seq<Purchase>)
    requires WellFormed(d)
  {
    var b := BalancesOf(d, doc, inst);
    && (forall i :: 0 <= i < |ps| ==> ps[i].qty > 0)
    && CustodyToday(b) == TotalQty(ps) && b.avgPrice == StoredPrice(ps)
  }

  lemma BuiltStep(d: Ledger, lsn: nat, e: Event, doc: U64, inst: U32, ps: seq<Purchase>)
    requires WellFormed(d) && BuiltBy(d, doc, inst, ps) && OnlyBuys(e, doc, inst) && !IsFatal(Apply(d, lsn, e).st)
    ensures var a := Apply(d, lsn, e);
            BuiltBy(a.d, doc, inst,
                    if a.st == Ok && Delivers(e, doc, inst) then ps + [Purchase(e.s.qty, e.s.cost)] else ps)
  {
    hide WellFormed, BalancesOf, FundsOf, Dispatch, Averaged, AveragePrice, CustodyToday;
    var a, b := Apply(d, lsn, e), BalancesOf(d, doc, inst);
    SameBooks(Dispatch(d, e).d, a.d, doc, inst);
    if a.st == Ok && Delivers(e, doc, inst) {
      var c, more := BalancesOf(a.d, doc, inst), ps + [Purchase(e.s.qty, e.s.cost)];
      DeliveryAverages(d, e, doc, inst);
      AveragedUnique(CustodyToday(b), b.avgPrice, e.s.qty, e.s.cost, c.avgPrice);
      assert more[..|ps|] == ps;
    } else {
      NotCorrupt(a.st);
      PriceMovesOnly(d, e, doc, inst);
      CustodyMovesOnly(d, e, doc, inst);
    }
  }

  lemma NotCorrupt(st: Err)
    requires !IsFatal(st)
    ensures st != StateCorrupt
  {
  }

  lemma {:induction false} BuiltRun(d: Ledger, lsn: nat, es: seq<Event>, doc: U64, inst: U32, ps: seq<Purchase>)
    requires WellFormed(d) && BuiltBy(d, doc, inst, ps) && !IsFatal(Run(d, lsn, es).st)
    requires forall i :: 0 <= i < |es| ==> OnlyBuys(es[i], doc, inst)
    ensures BuiltBy(Run(d, lsn, es).d, doc, inst, ps + Bought(d, lsn, es, doc, inst))
    decreases |es|
  {
    hide WellFormed, BuiltBy, Apply, IsFatal, OnlyBuys, Delivers;
    if es == [] {
      assert ps + [] == ps;
    } else {
      var a := Apply(d, lsn, es[0]);
      var rest := Bought(a.d, lsn + 1, es[1..], doc, inst);
      BuiltStep(d, lsn, es[0], doc, inst, ps);
      if a.st == Ok && Delivers(es[0], doc, inst) {
        IsDelivery(es[0], doc, inst);
        var p := Purchase(es[0].s.qty, es[0].s.cost);
        BuiltRun(a.d, lsn + 1, es[1..], doc, inst, ps + [p]);
        assert ps + [p] + rest == ps + ([p] + rest);
      } else {
        BuiltRun(a.d, lsn + 1, es[1..], doc, inst, ps);
        assert [] + rest == rest;
      }
    }
  }

  lemma IsDelivery(e: Event, doc: U64, inst: U32)
    requires Delivers(e, doc, inst)
    ensures e.TradeSettled?
  {
  }

  /** No drift, over any run: with sales pending but none settled, the price stored after purchases of at most 10,000
      shares is their exact cost over their exact quantity, rounded once. */
  lemma RunDoesNotDrift(d: Ledger, lsn: nat, es: seq<Event>, doc: U64, inst: U32)
    requires WellFormed(d) && !IsFatal(Run(d, lsn, es).st) && forall i :: 0 <= i < |es| ==> OnlyBuys(es[i], doc, inst)
    requires CustodyToday(BalancesOf(d, doc, inst)) == 0 && BalancesOf(d, doc, inst).avgPrice == 0
    requires Bought(d, lsn, es, doc, inst) != [] && TotalQty(Bought(d, lsn, es, doc, inst)) <= QTY_PRICE_TO_MONEY
    ensures var ps, c := Bought(d, lsn, es, doc, inst), BalancesOf(Run(d, lsn, es).d, doc, inst);
            && CustodyToday(c) == TotalQty(ps) > 0
            && IsRounded(HalfEven, TotalCost(ps) * QTY_PRICE_TO_MONEY, TotalQty(ps), c.avgPrice)
  {
    hide WellFormed, Run, BalancesOf, IsFatal, CustodyToday, OnlyBuys, Bought, IsRounded, RoundDiv;
    BuiltRun(d, lsn, es, doc, inst, []);
    var ps := Bought(d, lsn, es, doc, inst);
    assert [] + ps == ps;
    NoDrift(ps);
    Rounded(HalfEven, TotalCost(ps) * QTY_PRICE_TO_MONEY, TotalQty(ps));
  }
}
