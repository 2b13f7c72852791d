/** What holds of the ledger over every run of events. */
module LedgerLaws {
  import opened Status
  import Idempotency
  import opened Ledgers
  import opened Applying
  import opened Footprints

  // ---------------------------------------------------------------- what acceptance implies

  lemma ExecutedGuard(d: Ledger, x: Execution)
    requires WellFormed(d) && Mutated(TradeExecuted(x), ApplyTradeExecuted(d, x).st)
    ensures SlotOf(d.window, x.date).InSlot? && FactorOf(d, x.instrument) > 0
    ensures ExecutionError(x, BalancesOf(d, x.account, x.instrument)) == Ok
  {
    hide WellFormed, InternAccount, InternInstrument, InternPosition, BalancesOf, FundsOf, FactorOf, WithTrade;
    hide ExecutionError, BucketsNonNegative;
    var i1 := InternAccount(d, x.account);
    ExtendsViews(d, i1.d, x.account, x.instrument);
    var i2 := InternInstrument(i1.d, x.instrument);
    ExtendsViews(i1.d, i2.d, x.account, x.instrument);
    var i3 := InternPosition(i2.d, i1.row, i2.row);
    ExtendsViews(i2.d, i3.d, x.account, x.instrument);
    Indexed(i3.d, i1.row, i2.row, i3.row);
  }

  lemma SettledGuard(d: Ledger, s: Settlement)
    requires WellFormed(d) && Mutated(TradeSettled(s), ApplyTradeSettled(d, s).st)
    ensures var slot := SlotOf(d.window, s.date);
            SettleBuckets(BalancesOf(d, s.account, s.instrument), FundsOf(d, s.account), s, slot).Moves?
  {
    hide WellFormed, InternAccount, InternInstrument, BalancesOf, FundsOf, SettledRows, SettleBuckets;
    hide BucketsNonNegative;
    var i1 := InternAccount(d, s.account);
    ExtendsViews(d, i1.d, s.account, s.instrument);
    var i2 := InternInstrument(i1.d, s.instrument);
    ExtendsViews(i1.d, i2.d, s.account, s.instrument);
    var key := PositionKey(i1.row, i2.row);
    KeyNames(i2.d, key);
    Indexed(i2.d, i1.row, i2.row, i2.d.positionIndex[key]);
  }

  lemma ActionGuard(d: Ledger, c: Action)
    requires WellFormed(d) && Mutated(CorporateActionApplied(c), ApplyCorporateAction(d, c).st)
    ensures ActionError(c) == Ok && ActionBuckets(BalancesOf(d, c.account, c.instrument), c).Acts?
  {
    hide WellFormed, InternAccount, InternInstrument, InternPosition, BalancesOf, FundsOf, ActedRows;
    hide Idempotency.Insert;
    hide ActionBuckets, ActionError, BucketsNonNegative;
    var i1 := InternAccount(d, c.account);
    ExtendsViews(d, i1.d, c.account, c.instrument);
    var i2 := InternInstrument(i1.d, c.instrument);
    ExtendsViews(i1.d, i2.d, c.account, c.instrument);
    var i3 := InternPosition(i2.d, i1.row, i2.row);
    ExtendsViews(i2.d, i3.d, c.account, c.instrument);
    Indexed(i3.d, i1.row, i2.row, i3.row);
  }

  /** What an allocation that reached the books had to satisfy. */
  ghost predicate AllocationHolds(d: Ledger, a: Allocation)
    requires WellFormed(d)
  {
    RowsInRange(d);
    && a.trade in d.tradeIndex && SlotOf(d.window, a.date).InSlot?
    && NextState(d.trades[d.tradeIndex[a.trade]].state, Allocate) != Absent
    && a.qty == d.trades[d.tradeIndex[a.trade]].qty
    && (a.from != a.to ==>
          var i := TradeInstrument(d, a.trade);
          AllocationError(a, BalancesOf(d, a.from, i), BalancesOf(d, a.to, i), SlotOf(d.window, a.date).k) == Ok)
  }

  lemma AllocatedGuard(d: Ledger, a: Allocation)
    requires WellFormed(d) && Mutated(TradeAllocated(a), ApplyTradeAllocated(d, a).st)
    ensures AllocationHolds(d, a)
  {
    hide WellFormed, InternAccount, BalancesOf, AllocateRows, TradeInstrument, Extends, AllocationError;
    RowsInRange(d);
    var t := d.tradeIndex[a.trade];
    var i1 := InternAccount(d, a.from);
    var i2 := InternAccount(i1.d, a.to);
    ExtendsAgain(d, i1.d, i2.d);
    ExtendsTables(d, i2.d);
    AccountRows(i1.d, i2.d, i1.row, i2.row);
    TradeInstrumentKept(d, i2.d, a.trade);
    AllocateRowsGuard(i2.d, a, t, i1.row, i2.row);
    ExtendsViews(d, i2.d, a.from, TradeInstrument(d, a.trade));
    ExtendsViews(d, i2.d, a.to, TradeInstrument(d, a.trade));
  }

  lemma AllocateRowsGuard(d: Ledger, a: Allocation, t: nat, from: nat, to: nat)
    requires WellFormed(d) && a.trade in d.tradeIndex && t == d.tradeIndex[a.trade] && t < |d.trades|
    requires from < |d.accounts| && to < |d.accounts| && (from == to <==> a.from == a.to)
    requires d.accounts[from].document == a.from && d.accounts[to].document == a.to
    requires Mutated(TradeAllocated(a), AllocateRows(d, a, t, from, to).st)
    ensures SlotOf(d.window, a.date).InSlot? && a.qty == d.trades[t].qty
    ensures a.from != a.to ==>
              var i := TradeInstrument(d, a.trade);
              AllocationError(a, BalancesOf(d, a.from, i), BalancesOf(d, a.to, i), SlotOf(d.window, a.date).k) == Ok
  {
    hide WellFormed, BalancesOf, Fixed, Moved, InternPosition, AllocationError, BucketsNonNegative;
    RowsInRange(d);
    if a.from != a.to {
      var i := d.trades[t].instrument;
      var i1 := InternPosition(d, from, i);
      var i2 := InternPosition(i1.d, to, i);
      ExtendsViews(d, i1.d, a.from, TradeInstrument(d, a.trade));
      ExtendsViews(d, i1.d, a.to, TradeInstrument(d, a.trade));
      ExtendsViews(i1.d, i2.d, a.from, TradeInstrument(d, a.trade));
      ExtendsViews(i1.d, i2.d, a.to, TradeInstrument(d, a.trade));
      Indexed(i2.d, from, i, i1.row);
      Indexed(i2.d, to, i, i2.row);
    }
  }
}
