/** Exactly what a refused event leaves behind: rows it made, a record it queued, a key it took. */
module Traces {
  import opened Bytes
  import opened Status
  import Rounding
  import opened Calendar
  import opened Idempotency
  import opened Ledgers
  import opened Applying
  import opened Footprints
  import Rejections
  import opened OwnerViews

  predicate AccountMade(d: Ledger, doc: U64) {
    |d.accounts| < d.cap.accounts && doc !in d.accountIndex
  }

  predicate InstrumentMade(d: Ledger, id: U32) {
    |d.instruments| < d.cap.instruments && id !in d.instrumentIndex
  }

  predicate PositionMade(d: Ledger, doc: U64, inst: U32) {
    |d.custody| < d.cap.positions && !HasPosition(d, doc, inst)
  }

  predicate ExecutionTraces(d: Ledger, x: Execution)
    requires WellFormed(d)
  {
    && |d.trades| < d.cap.trades && x.id !in d.tradeIndex && |d.accounts| < d.cap.accounts
    && (|| AccountMade(d, x.account) || InstrumentMade(d, x.instrument)
        || (&& |d.instruments| < d.cap.instruments && FactorOf(d, x.instrument) > 0 && SlotOf(d.window, x.date).InSlot?
            && PositionMade(d, x.account, x.instrument)))
  }

  predicate AllocationTraces(d: Ledger, a: Allocation)
    requires WellFormed(d)
  {
    RowsInRange(d);
    && a.trade in d.tradeIndex && NextState(d.trades[d.tradeIndex[a.trade]].state, Allocate) != Absent
    && |d.accounts| < d.cap.accounts
    && (|| AccountMade(d, a.from) || AccountMade(d, a.to)
        || (&& SlotOf(d.window, a.date).InSlot? && a.qty == d.trades[d.tradeIndex[a.trade]].qty && a.from != a.to
            && (|| PositionMade(d, a.from, TradeInstrument(d, a.trade))
                || PositionMade(d, a.to, TradeInstrument(d, a.trade)))))
  }

  predicate NettingTraces(d: Ledger, account: U64, net: int, date: Date)
    requires WellFormed(d)
  {
    var slot := SlotOf(d.window, date);
    || AccountMade(d, account)
    || (|d.accounts| < d.cap.accounts && slot.InSlot? && At(FundsOf(d, account).pending, slot.k) != net
        && d.cap.exceptions > 0)
  }

  predicate SettlementTraces(d: Ledger, s: Settlement) {
    AccountMade(d, s.account) || (|d.accounts| < d.cap.accounts && InstrumentMade(d, s.instrument))
  }

  /** The only trace that is more than a row or a record: the key of an action denied after it was taken. */
  predicate ActionTraces(d: Ledger, c: Action)
    requires WellFormed(d)
  {
    || AccountMade(d, c.account)
    || (&& |d.accounts| < d.cap.accounts
        && (|| InstrumentMade(d, c.instrument)
            || (&& |d.instruments| < d.cap.instruments
                && (PositionMade(d, c.account, c.instrument) || (|d.custody| < d.cap.positions && KeyTaken(d, c))))))
  }

  predicate KeyTaken(d: Ledger, c: Action)
    requires WellFormed(d)
  {
    && ActionError(c) == Ok && ActionBuckets(BalancesOf(d, c.account, c.instrument), c).Denies?
    && c.account in d.accountIndex
    && Insert(d.actions, AppliedKey(c.id, d.accountIndex[c.account]), TableSize(d.cap.actionsPerGen)).New?
  }

  predicate DividendTraces(d: Ledger, p: Dividend) {
    || AccountMade(d, p.account)
    || (&& |d.accounts| < d.cap.accounts && d.cap.exceptions > 0
        && p.gross - p.withheld == p.net && Within(p.basis, MAX_QTY) && Within(p.rate, MAX_MONEY)
        && !Within(p.gross - Rounding.MulDiv(Rounding.HalfEven, p.basis, p.rate, Rounding.ONE_SHARE), 100))
  }

  /** Whether the event, if it is refused, leaves a trace, told from the ledger it meets. */
  predicate LeavesTrace(d: Ledger, e: Event)
    requires WellFormed(d)
  {
    match e
    case TradeExecuted(x) => ExecutionTraces(d, x)
    case TradeAllocated(a) => AllocationTraces(d, a)
    case BatchNetted(account, net, date, _) => NettingTraces(d, account, net, date)
    case TradeSettled(s) => SettlementTraces(d, s)
    case CorporateActionApplied(c) => ActionTraces(d, c)
    case DividendPaid(p) => DividendTraces(d, p)
    case _ => false
  }

  // ---------------------------------------------------------------- rows made show

  lemma AccountShows(d: Ledger, doc: U64)
    requires WellFormed(d) && InternAccount(d, doc).Row?
    ensures var r := InternAccount(d, doc);
            if doc in d.accountIndex then r.d == d else |r.d.accounts| > |d.accounts|
  {
  }

  lemma InstrumentShows(d: Ledger, id: U32)
    requires WellFormed(d) && InternInstrument(d, id).Row?
    ensures var r := InternInstrument(d, id);
            if id in d.instrumentIndex then r.d == d else |r.d.instruments| > |d.instruments|
  {
  }

  lemma PositionShows(d: Ledger, acct: nat, i: nat)
    requires WellFormed(d) && acct < |d.accounts| && i < |d.instruments| && InternPosition(d, acct, i).Row?
    ensures var r := InternPosition(d, acct, i);
            if PositionKey(acct, i) in d.positionIndex then r.d == d else |r.d.custody| > |d.custody|
  {
  }

  // ---------------------------------------------------------------- event by event

  lemma ExecutionTrace(d: Ledger, x: Execution)
    requires WellFormed(d) && !Mutated(TradeExecuted(x), ApplyTradeExecuted(d, x).st)
    ensures ApplyTradeExecuted(d, x).d == d <==> !ExecutionTraces(d, x)
  {
    hide WellFormed, InternAccount, InternInstrument, InternPosition, ExecutionError, WithTrade, BucketsNonNegative;
    hide Extends, HasPosition, FactorOf;
    if |d.trades| < d.cap.trades && x.id !in d.tradeIndex {
      var i1 := InternAccount(d, x.account);
      if i1.Row? {
        AccountShows(d, x.account);
        ExtendsTables(d, i1.d);
        ExtendsSizes(d, i1.d);
        var i2 := InternInstrument(i1.d, x.instrument);
        if i2.Row? {
          InstrumentShows(i1.d, x.instrument);
          ExtendsTables(i1.d, i2.d);
          ExtendsSizes(i1.d, i2.d);
          AccountRows(i1.d, i2.d, i1.row, i1.row);
          InstrumentRow(i2.d, i2.row);
          PositionAt(i2.d, i1.row, i2.row);
          if i2.d.instruments[i2.row].factor != 0 && SlotOf(i2.d.window, x.date).InSlot? {
            var i3 := InternPosition(i2.d, i1.row, i2.row);
            if i3.Row? {
              PositionShows(i2.d, i1.row, i2.row);
              ExtendsSizes(i2.d, i3.d);
            }
          }
        }
      }
    }
  }

  lemma SettlementTrace(d: Ledger, s: Settlement)
    requires WellFormed(d) && !Mutated(TradeSettled(s), ApplyTradeSettled(d, s).st)
    ensures ApplyTradeSettled(d, s).d == d <==> !SettlementTraces(d, s)
  {
    hide WellFormed, InternAccount, InternInstrument, SettleBuckets, SettledRows, BucketsNonNegative, Extends;
    var i1 := InternAccount(d, s.account);
    if i1.Row? {
      AccountShows(d, s.account);
      ExtendsTables(d, i1.d);
      ExtendsSizes(d, i1.d);
      var i2 := InternInstrument(i1.d, s.instrument);
      if i2.Row? {
        InstrumentShows(i1.d, s.instrument);
        ExtendsTables(i1.d, i2.d);
        ExtendsSizes(i1.d, i2.d);
        RowsInRange(i2.d);
      }
    }
  }

  lemma NettingTrace(d: Ledger, account: U64, net: int, date: Date, count: nat)
    requires WellFormed(d) && ApplyBatchNetted(d, account, net, date, count).st != Ok
    ensures ApplyBatchNetted(d, account, net, date, count).d == d <==> !NettingTraces(d, account, net, date)
  {
    hide WellFormed, InternAccount, CountNetted, Extends, FundsOf;
    var i1 := InternAccount(d, account);
    if i1.Row? {
      AccountShows(d, account);
      ExtendsTables(d, i1.d);
      AccountView(i1.d, i1.row);
    }
  }

  lemma DividendTrace(d: Ledger, p: Dividend)
    requires WellFormed(d) && ApplyDividendPaid(d, p).st != Ok
    ensures ApplyDividendPaid(d, p).d == d <==> !DividendTraces(d, p)
  {
    hide WellFormed, InternAccount, Insert, Rounding.MulDiv, Extends;
    var i1 := InternAccount(d, p.account);
    if i1.Row? {
      AccountShows(d, p.account);
      ExtendsTables(d, i1.d);
    }
  }

  lemma ActionTrace(d: Ledger, c: Action)
    requires WellFormed(d) && !Mutated(CorporateActionApplied(c), ApplyCorporateAction(d, c).st)
    ensures ApplyCorporateAction(d, c).d == d <==> !ActionTraces(d, c)
  {
    hide WellFormed, InternAccount, InternInstrument, InternPosition, ActOn, Extends, HasPosition, KeyTaken;
    var i1 := InternAccount(d, c.account);
    if i1.Row? {
      AccountShows(d, c.account);
      ExtendsTables(d, i1.d);
      ExtendsSizes(d, i1.d);
      var i2 := InternInstrument(i1.d, c.instrument);
      if i2.Row? {
        InstrumentShows(i1.d, c.instrument);
        ExtendsTables(i1.d, i2.d);
        ExtendsSizes(i1.d, i2.d);
        AccountRows(i1.d, i2.d, i1.row, i1.row);
        PositionAt(i2.d, i1.row, i2.row);
        var i3 := InternPosition(i2.d, i1.row, i2.row);
        if i3.Row? {
          PositionShows(i2.d, i1.row, i2.row);
          ExtendsTables(i2.d, i3.d);
          ExtendsSizes(i2.d, i3.d);
          InstrumentKept(i2.d, i3.d, i2.row);
          AccountRows(i2.d, i3.d, i1.row, i1.row);
          ActOnTrace(i3.d, c, i1.row, i2.row, i3.row);
        }
      }
    }
  }

  lemma ActOnTrace(d: Ledger, c: Action, acct: nat, i: nat, pos: nat)
    requires WellFormed(d) && acct < |d.accounts| && i < |d.instruments| && pos < |d.custody|
    requires d.accounts[acct].document == c.account && d.instruments[i].id == c.instrument
    requires KeyOf(d.custody[pos]) == PositionKey(acct, i)
    requires !Mutated(CorporateActionApplied(c), ActOn(d, c, acct, pos).st)
    ensures ActOn(d, c, acct, pos).d == d <==> !KeyTaken(d, c)
    ensures |ActOn(d, c, acct, pos).d.accounts| == |d.accounts|
    ensures |ActOn(d, c, acct, pos).d.instruments| == |d.instruments|
    ensures |ActOn(d, c, acct, pos).d.custody| == |d.custody|
  {
    hide WellFormed, ActionBuckets, ActionError, BucketsNonNegative, ActedRows, Insert, BalancesOf, FundsOf, FactorOf;
    hide TableSize, Contains;
    Indexed(d, acct, i, pos);
    Rejections.OwnerRow(d, acct);
    var key, slots := AppliedKey(c.id, acct), TableSize(d.cap.actionsPerGen);
    if Insert(d.actions, key, slots).New? {
      Rejections.InsertGrows(d.actions, key, slots);
    }
  }

  lemma AllocationTrace(d: Ledger, a: Allocation)
    requires WellFormed(d) && !Mutated(TradeAllocated(a), ApplyTradeAllocated(d, a).st)
    ensures ApplyTradeAllocated(d, a).d == d <==> !AllocationTraces(d, a)
  {
    hide WellFormed, InternAccount, AllocateRows, Extends, HasPosition, TradeInstrument, PositionMade;
    RowsInRange(d);
    if a.trade in d.tradeIndex && NextState(d.trades[d.tradeIndex[a.trade]].state, Allocate) != Absent {
      var i1 := InternAccount(d, a.from);
      if i1.Row? {
        AccountShows(d, a.from);
        ExtendsTables(d, i1.d);
        ExtendsSizes(d, i1.d);
        var i2 := InternAccount(i1.d, a.to);
        if i2.Row? {
          AccountShows(i1.d, a.to);
          ExtendsTables(i1.d, i2.d);
          ExtendsSizes(i1.d, i2.d);
          AccountRows(i1.d, i2.d, i1.row, i2.row);
          AccountRows(i1.d, i2.d, i1.row, i1.row);
          AllocateRowsTrace(i2.d, a, d.tradeIndex[a.trade], i1.row, i2.row);
        }
      }
    }
  }

  lemma AllocateRowsTrace(d: Ledger, a: Allocation, t: nat, from: nat, to: nat)
    requires WellFormed(d) && a.trade in d.tradeIndex && t == d.tradeIndex[a.trade] && t < |d.trades|
    requires from < |d.accounts| && to < |d.accounts| && (from == to <==> a.from == a.to)
    requires d.accounts[from].document == a.from && d.accounts[to].document == a.to
    requires !Mutated(TradeAllocated(a), AllocateRows(d, a, t, from, to).st)
    ensures AllocateRows(d, a, t, from, to).d != d
       <==> && SlotOf(d.window, a.date).InSlot? && a.qty == d.trades[t].qty && a.from != a.to
            && (PositionMade(d, a.from, TradeInstrument(d, a.trade))
                || PositionMade(d, a.to, TradeInstrument(d, a.trade)))
    ensures |AllocateRows(d, a, t, from, to).d.accounts| == |d.accounts|
  {
    Rejections.TradeRow(d, t);
    hide WellFormed, AllocateAcross, Fixed;
    var slot := SlotOf(d.window, a.date);
    if slot.InSlot? && a.qty == d.trades[t].qty && from != to {
      AcrossTrace(d, a, t, from, to, slot.k);
    }
  }

  lemma AcrossTrace(d: Ledger, a: Allocation, t: nat, from: nat, to: nat, k: nat)
    requires WellFormed(d) && t < |d.trades| && from < |d.accounts| && to < |d.accounts| && from != to && k < 3
    requires d.trades[t].instrument < |d.instruments|
    requires !Mutated(TradeAllocated(a), AllocateAcross(d, a, t, from, to, k).st)
    ensures var r, i := AllocateAcross(d, a, t, from, to, k), d.instruments[d.trades[t].instrument].id;
            && (r.d != d <==>
                PositionMade(d, d.accounts[from].document, i) || PositionMade(d, d.accounts[to].document, i))
            && |r.d.accounts| == |d.accounts|
  {
    hide WellFormed, InternPosition, AllocationError, Moved, Fixed, BucketsNonNegative, Extends, HasPosition;
    var i := d.trades[t].instrument;
    PositionAt(d, from, i);
    PositionAt(d, to, i);
    var i1 := InternPosition(d, from, i);
    if i1.Row? {
      PositionShows(d, from, i);
      ExtendsSizes(d, i1.d);
      ExtendsTables(d, i1.d);
      PositionKeepsOthers(d, from, i);
      var i2 := InternPosition(i1.d, to, i);
      if i2.Row? {
        PositionShows(i1.d, to, i);
        ExtendsSizes(i1.d, i2.d);
        PositionKeepsOthers(i1.d, to, i);
      }
    }
  }

  lemma PositionKeepsOthers(d: Ledger, acct: nat, i: nat)
    requires WellFormed(d) && acct < |d.accounts| && i < |d.instruments| && InternPosition(d, acct, i).Row?
    ensures InternPosition(d, acct, i).d.accounts == d.accounts
    ensures InternPosition(d, acct, i).d.instruments == d.instruments
  {
  }

  /** A refused event leaves the ledger identical, to the last row and record, exactly when it leaves no trace. */
  lemma RefusedLeavesNothing(d: Ledger, e: Event)
    requires WellFormed(d) && !Mutated(e, Dispatch(d, e).st)
    ensures Dispatch(d, e).d == d <==> !LeavesTrace(d, e)
  {
    hide WellFormed, ApplyTradeExecuted, ApplyTradeAllocated, ApplyTradeSettled, ApplyCorporateAction, ApplyBatchNetted;
    hide Reconciled, ApplyDividendPaid, InternInstrument, TurnDay, Compacted, ExecutionTraces, AllocationTraces;
    hide NettingTraces, SettlementTraces, ActionTraces, DividendTraces;
    match e
    case TradeExecuted(x) => ExecutionTrace(d, x);
    case TradeAllocated(a) => AllocationTrace(d, a);
    case TradeSettled(s) => SettlementTrace(d, s);
    case BatchNetted(account, net, date, count) => NettingTrace(d, account, net, date, count);
    case CorporateActionApplied(c) => ActionTrace(d, c);
    case DividendPaid(p) => DividendTrace(d, p);
    case _ =>
  }
}
