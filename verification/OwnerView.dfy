/** All that an event's outcome depends on, seen by owner. */
module OwnerViews {
  import opened Bytes
  import opened Status
  import Rounding
  import opened Calendar
  import opened Idempotency
  import opened Ledgers
  import opened Applying
  import opened Footprints
  import AppliedOnce

  /** Is there a row for this owner and instrument? */
  predicate HasPosition(d: Ledger, doc: U64, inst: U32)
  {
    doc in d.accountIndex && inst in d.instrumentIndex
    && PositionKey(d.accountIndex[doc], d.instrumentIndex[inst]) in d.positionIndex
  }

  /** Has this owner's application of `id` been recorded in this generation? */
  predicate Marked(d: Ledger, g: set<AppliedKey>, id: U64, doc: U64) {
    doc in d.accountIndex && AppliedOnce.KeyIn(d, id, doc) in g
  }

  predicate Known(d: Ledger, s: TwoGen, id: U64, doc: U64) {
    Marked(d, s.gen0, id, doc) || Marked(d, s.gen1, id, doc)
  }

  // ---------------------------------------------------------------- where interning leads

  /** Only rows' contents, trades, exceptions and keys may differ. */
  ghost predicate SameTables(d: Ledger, e: Ledger) {
    && e.instruments == d.instruments && e.instrumentIndex == d.instrumentIndex
    && e.accountIndex == d.accountIndex && e.positionIndex == d.positionIndex
    && e.window == d.window && e.businessDate == d.businessDate && e.cap == d.cap
  }

  /** The ledger an event has made rows in, before it changes any. */
  function Prepared(d: Ledger, e: Event): (m: Ledger)
    requires WellFormed(d)
    ensures WellFormed(m)
  {
    hide WellFormed, InternAccount, InternInstrument, InternPosition;
    match e
    case TradeExecuted(x) => PreparedExecution(d, x)
    case TradeAllocated(a) => PreparedAllocation(d, a)
    case BatchNetted(account, _, _, _) => Or(InternAccount(d, account), d)
    case TradeSettled(s) =>
      (match InternAccount(d, s.account)
       case TableFull => d
       case Row(d1, _) => Or(InternInstrument(d1, s.instrument), d1))
    case CorporateActionApplied(c) => PreparedAction(d, c)
    case DividendPaid(p) => Or(InternAccount(d, p.account), d)
    case _ => d
  }

  function Or(i: Interned, d: Ledger): (m: Ledger)
    requires WellFormed(d) && (i.Row? ==> WellFormed(i.d))
    ensures WellFormed(m)
  {
    if i.Row? then i.d else d
  }

  function PreparedExecution(d: Ledger, x: Execution): (m: Ledger)
    requires WellFormed(d)
    ensures WellFormed(m)
  {
    hide WellFormed, InternAccount, InternInstrument, InternPosition;
    if |d.trades| >= d.cap.trades || x.id in d.tradeIndex then d
    else
      match InternAccount(d, x.account)
      case TableFull => d
      case Row(d1, acct) =>
        match InternInstrument(d1, x.instrument)
        case TableFull => d1
        case Row(d2, inst) =>
          if d2.instruments[inst].factor == 0 || SlotOf(d2.window, x.date).NoSlot? then d2
          else Or(InternPosition(d2, acct, inst), d2)
  }

  function PreparedAction(d: Ledger, c: Action): (m: Ledger)
    requires WellFormed(d)
    ensures WellFormed(m)
  {
    hide WellFormed, InternAccount, InternInstrument, InternPosition;
    match InternAccount(d, c.account)
    case TableFull => d
    case Row(d1, acct) =>
      match InternInstrument(d1, c.instrument)
      case TableFull => d1
      case Row(d2, inst) => Or(InternPosition(d2, acct, inst), d2)
  }

  /** Of an allocation within one account. */
  function PreparedAllocation(d: Ledger, a: Allocation): (m: Ledger)
    requires WellFormed(d)
    ensures WellFormed(m)
  {
    hide WellFormed, InternAccount;
    if a.trade !in d.tradeIndex then d
    else
      RowsInRange(d);
      if NextState(d.trades[d.tradeIndex[a.trade]].state, Allocate) == Absent then d
      else
        var m := Or(InternAccount(d, a.from), d);
        Or(InternAccount(m, a.to), m)
  }

  lemma ExtendsItself(d: Ledger)
    ensures Extends(d, d) && SameTables(d, d)
  {
  }

  lemma ExecutionPrepared(d: Ledger, x: Execution)
    requires WellFormed(d)
    ensures Extends(d, PreparedExecution(d, x)) && SameTables(PreparedExecution(d, x), ApplyTradeExecuted(d, x).d)
  {
    hide WellFormed, InternAccount, InternInstrument, InternPosition, Extends, SameTables, ExecutionError, WithTrade;
    hide BucketsNonNegative;
    ExtendsItself(d);
    if |d.trades| < d.cap.trades && x.id !in d.tradeIndex {
      var i1 := InternAccount(d, x.account);
      if i1.Row? {
        ExtendsItself(i1.d);
        var i2 := InternInstrument(i1.d, x.instrument);
        if i2.Row? {
          ExtendsItself(i2.d);
          ExtendsAgain(d, i1.d, i2.d);
          ExtendsSizes(i1.d, i2.d);
          var slot := SlotOf(i2.d.window, x.date);
          if i2.d.instruments[i2.row].factor != 0 && slot.InSlot? {
            var i3 := InternPosition(i2.d, i1.row, i2.row);
            if i3.Row? {
              ExtendsItself(i3.d);
              ExtendsAgain(d, i2.d, i3.d);
              ExtendsTables(d, i3.d);
              ExtendsSizes(i2.d, i3.d);
              InstrumentKept(i2.d, i3.d, i2.row);
              if ExecutionError(x, i3.d.custody[i3.row].b) == Ok {
                WithTradeTables(i3.d, x, i1.row, i2.row, i3.row, slot.k);
              }
            }
          }
        }
      }
    }
  }

  lemma WithTradeTables(d: Ledger, x: Execution, acct: nat, i: nat, pos: nat, k: nat)
    requires WellFormed(d) && acct < |d.accounts| && i < |d.instruments| && pos < |d.custody| && k < 3
    requires d.instruments[i].factor > 0 && x.id !in d.tradeIndex && |d.trades| < d.cap.trades
    ensures SameTables(d, WithTrade(d, x, acct, i, pos, k))
  {
    hide WellFormed, Amount, ExecuteBalances;
  }

  lemma SettlementPrepared(d: Ledger, s: Settlement)
    requires WellFormed(d)
    ensures var m := Prepared(d, TradeSettled(s));
            Extends(d, m) && SameTables(m, ApplyTradeSettled(d, s).d)
  {
    hide WellFormed, InternAccount, InternInstrument, Extends, SameTables, SettleBuckets, SettledRows;
    hide BucketsNonNegative;
    ExtendsItself(d);
    var i1 := InternAccount(d, s.account);
    if i1.Row? {
      ExtendsItself(i1.d);
      var i2 := InternInstrument(i1.d, s.instrument);
      if i2.Row? {
        ExtendsItself(i2.d);
        ExtendsAgain(d, i1.d, i2.d);
        ExtendsSizes(i1.d, i2.d);
        RowsInRange(i2.d);
        var key := PositionKey(i1.row, i2.row);
        if key in i2.d.positionIndex {
          var pos := i2.d.positionIndex[key];
          var r := SettleBuckets(i2.d.custody[pos].b, i2.d.accounts[i1.row].m, s, SlotOf(i2.d.window, s.date));
          if r.Moves? {
            SettledRowsTables(i2.d, s, i1.row, i2.row, pos, r.b, r.m);
          }
        }
      }
    }
  }

  lemma SettledRowsTables(d: Ledger, s: Settlement, acct: nat, i: nat, pos: nat, b: Balances, m: Funds)
    requires WellFormed(d) && acct < |d.accounts| && pos < |d.custody|
    ensures SameTables(d, SettledRows(d, s, acct, i, pos, b, m))
  {
    hide WellFormed, Noted, SettledTrades, SlotOf;
    assert SameTables(d, SetFunds(SetBalances(d, pos, b), acct, m));
  }

  lemma ActionPrepared(d: Ledger, c: Action)
    requires WellFormed(d)
    ensures Extends(d, PreparedAction(d, c)) && SameTables(PreparedAction(d, c), ApplyCorporateAction(d, c).d)
  {
    hide WellFormed, InternAccount, InternInstrument, InternPosition, Extends, SameTables, ActionError, ActionBuckets;
    hide BucketsNonNegative, ActedRows, Insert;
    ExtendsItself(d);
    var i1 := InternAccount(d, c.account);
    if i1.Row? {
      ExtendsItself(i1.d);
      var i2 := InternInstrument(i1.d, c.instrument);
      if i2.Row? {
        ExtendsItself(i2.d);
        ExtendsAgain(d, i1.d, i2.d);
        ExtendsSizes(i1.d, i2.d);
        var i3 := InternPosition(i2.d, i1.row, i2.row);
        if i3.Row? {
          ExtendsItself(i3.d);
          ExtendsAgain(d, i2.d, i3.d);
          ExtendsSizes(i2.d, i3.d);
          var key := AppliedKey(c.id, i1.row);
          var ins := Insert(i3.d.actions, key, TableSize(i3.d.cap.actionsPerGen));
          if ActionError(c) == Ok && ins.New? {
            ActedTables(i3.d, c, key, ins.after, i1.row, i3.row);
          }
        }
      }
    }
  }

  lemma ActedTables(d: Ledger, c: Action, key: AppliedKey, after: TwoGen, acct: nat, pos: nat)
    requires WellFormed(d) && acct < |d.accounts| && pos < |d.custody|
    requires Insert(d.actions, key, TableSize(d.cap.actionsPerGen)) == New(after)
    ensures var e := WithActions(d, key, after);
            SameTables(d, e) && forall b, moved, cash :: SameTables(d, ActedRows(e, c, acct, pos, b, moved, cash))
  {
    hide WellFormed, Noted, Insert;
  }

  lemma AllocationPrepared(d: Ledger, a: Allocation)
    requires WellFormed(d) && a.from == a.to
    ensures Extends(d, PreparedAllocation(d, a)) && SameTables(PreparedAllocation(d, a), ApplyTradeAllocated(d, a).d)
  {
    hide WellFormed, InternAccount, Extends, SameTables, AllocateRows;
    ExtendsItself(d);
    RowsInRange(d);
    if a.trade in d.tradeIndex && NextState(d.trades[d.tradeIndex[a.trade]].state, Allocate) != Absent {
      var i1 := InternAccount(d, a.from);
      if i1.Row? {
        ExtendsItself(i1.d);
        var i2 := InternAccount(i1.d, a.to);
        if i2.Row? {
          ExtendsAgain(d, i1.d, i2.d);
          ExtendsTables(d, i2.d);
          ExtendsSizes(i1.d, i2.d);
          AccountRows(i1.d, i2.d, i1.row, i2.row);
          WithinTables(i2.d, a, d.tradeIndex[a.trade], i1.row);
        }
      }
    }
  }

  lemma WithinTables(d: Ledger, a: Allocation, t: nat, acct: nat)
    requires WellFormed(d) && t < |d.trades| && acct < |d.accounts|
    ensures SameTables(d, AllocateRows(d, a, t, acct, acct).d)
  {
    hide WellFormed;
  }

  /** Every event but a day and a price: rows are made, then only their contents change. */
  lemma PreparedThenChanged(d: Ledger, e: Event)
    requires WellFormed(d) && !e.DayOpened? && !e.ClosingPriceSet?
    requires e.TradeAllocated? ==> e.a.from == e.a.to
    ensures Extends(d, Prepared(d, e)) && SameTables(Prepared(d, e), Dispatch(d, e).d)
  {
    hide WellFormed, InternAccount, InternInstrument, Extends, SameTables, ApplyTradeExecuted, ApplyTradeAllocated;
    hide ApplyTradeSettled, ApplyCorporateAction, ApplyBatchNetted, ApplyDividendPaid, Reconciled;
    ExtendsItself(d);
    match e
    case TradeExecuted(x) => ExecutionPrepared(d, x);
    case TradeAllocated(a) => AllocationPrepared(d, a);
    case TradeSettled(s) => SettlementPrepared(d, s);
    case CorporateActionApplied(c) => ActionPrepared(d, c);
    case BatchNetted(account, net, date, count) => NettingPrepared(d, account, net, date, count);
    case DividendPaid(p) => DividendPrepared(d, p);
    case CustodyReconciled(date, ds) => ReconciledTables(d, date, ds);
    case EodMarked(_, _, _) => AnchorTables(d, e);
    case _ =>
  }

  lemma AnchorTables(d: Ledger, e: Event)
    requires WellFormed(d) && e.EodMarked?
    ensures SameTables(d, Dispatch(d, e).d)
  {
    hide WellFormed, CustodySum, CashSum;
  }

  lemma NettingPrepared(d: Ledger, account: U64, net: int, date: Date, count: nat)
    requires WellFormed(d)
    ensures var m := Or(InternAccount(d, account), d);
            Extends(d, m) && SameTables(m, ApplyBatchNetted(d, account, net, date, count).d)
  {
    hide WellFormed, InternAccount, Extends, CountNetted;
    ExtendsItself(d);
  }

  lemma DividendPrepared(d: Ledger, p: Dividend)
    requires WellFormed(d)
    ensures var m := Or(InternAccount(d, p.account), d);
            Extends(d, m) && SameTables(m, ApplyDividendPaid(d, p).d)
  {
    hide WellFormed, InternAccount, Extends, Insert, Rounding.MulDiv;
    ExtendsItself(d);
  }

  lemma {:induction false} ReconciledTables(d: Ledger, date: Date, ds: seq<Divergence>)
    requires WellFormed(d)
    ensures SameTables(d, Reconciled(d, date, ds))
    decreases |ds|
  {
    hide WellFormed;
    if ds != [] {
      var x := ExceptionRecord(ds[0].account, ds[0].qtyDelta, ds[0].instrument, date, QtyMismatch);
      ReconciledTables(PushException(d, x, true), date, ds[1..]);
    }
  }

  // ---------------------------------------------------------------- rows that appear

  lemma PositionAt(d: Ledger, acct: nat, i: nat)
    requires WellFormed(d) && acct < |d.accounts| && i < |d.instruments|
    ensures HasPosition(d, d.accounts[acct].document, d.instruments[i].id) <==> PositionKey(acct, i) in d.positionIndex
  {
  }

  lemma SameTablesPosition(d: Ledger, e: Ledger, doc: U64, inst: U32)
    requires WellFormed(d) && WellFormed(e) && SameTables(d, e)
    ensures HasPosition(e, doc, inst) == HasPosition(d, doc, inst) && FactorOf(e, inst) == FactorOf(d, inst)
  {
  }

  lemma KeysInRange(d: Ledger)
    requires WellFormed(d)
    ensures forall k :: k in d.positionIndex ==> k.account < |d.accounts| && k.instrument < |d.instruments|
  {
    forall k | k in d.positionIndex
      ensures k.account < |d.accounts| && k.instrument < |d.instruments|
    {
      KeyNames(d, k);
    }
  }

  /** No position is made by making an account or an instrument. */
  lemma AccountMakesNone(d: Ledger, doc: U64, x: U64, inst: U32)
    requires WellFormed(d) && InternAccount(d, doc).Row?
    ensures HasPosition(InternAccount(d, doc).d, x, inst) == HasPosition(d, x, inst)
  {
    hide WithinCapacity;
    KeysInRange(d);
  }

  lemma InstrumentMakesNone(d: Ledger, id: U32, x: U64, inst: U32)
    requires WellFormed(d) && InternInstrument(d, id).Row?
    ensures HasPosition(InternInstrument(d, id).d, x, inst) == HasPosition(d, x, inst)
  {
    hide WithinCapacity;
    KeysInRange(d);
  }

  lemma PositionMakesOne(d: Ledger, acct: nat, i: nat, x: U64, inst: U32)
    requires WellFormed(d) && acct < |d.accounts| && i < |d.instruments| && InternPosition(d, acct, i).Row?
    ensures HasPosition(InternPosition(d, acct, i).d, x, inst)
        <==> HasPosition(d, x, inst) || (d.accounts[acct].document == x && d.instruments[i].id == inst)
  {
    hide WithinCapacity;
  }

  /** Which position an event makes, if it is not there already. */
  predicate Makes(d: Ledger, e: Event, doc: U64, inst: U32)
    requires WellFormed(d)
  {
    match e
    case TradeExecuted(x) =>
      x.account == doc && x.instrument == inst && x.id !in d.tradeIndex && FactorOf(d, inst) > 0
      && SlotOf(d.window, x.date).InSlot?
    case CorporateActionApplied(c) => c.account == doc && c.instrument == inst
    case _ => false
  }

  lemma ExecutionMakes(d: Ledger, x: Execution, doc: U64, inst: U32)
    requires WellFormed(d) && !IsFatal(ApplyTradeExecuted(d, x).st)
    ensures HasPosition(PreparedExecution(d, x), doc, inst)
        <==> HasPosition(d, doc, inst) || Makes(d, TradeExecuted(x), doc, inst)
  {
    hide WellFormed, InternAccount, InternInstrument, InternPosition, Extends, HasPosition, FactorOf, WithTrade;
    hide ExecutionError;
    if |d.trades| < d.cap.trades && x.id !in d.tradeIndex {
      var i1 := InternAccount(d, x.account);
      AccountMakesNone(d, x.account, doc, inst);
      ExtendsViews(d, i1.d, doc, x.instrument);
      var i2 := InternInstrument(i1.d, x.instrument);
      InstrumentMakesNone(i1.d, x.instrument, doc, inst);
      ExtendsViews(i1.d, i2.d, doc, x.instrument);
      ExtendsAgain(d, i1.d, i2.d);
      ExtendsTables(d, i2.d);
      InstrumentRow(i2.d, i2.row);
      if i2.d.instruments[i2.row].factor != 0 && SlotOf(i2.d.window, x.date).InSlot? {
        ExtendsSizes(i1.d, i2.d);
        AccountRows(i1.d, i2.d, i1.row, i1.row);
        PositionMakesOne(i2.d, i1.row, i2.row, doc, inst);
      }
    }
  }

  lemma InstrumentRow(d: Ledger, i: nat)
    requires WellFormed(d) && i < |d.instruments|
    ensures FactorOf(d, d.instruments[i].id) == d.instruments[i].factor
  {
  }

  lemma ActionMakes(d: Ledger, c: Action, doc: U64, inst: U32)
    requires WellFormed(d) && !IsFatal(ApplyCorporateAction(d, c).st)
    ensures HasPosition(PreparedAction(d, c), doc, inst)
        <==> HasPosition(d, doc, inst) || Makes(d, CorporateActionApplied(c), doc, inst)
  {
    hide WellFormed, InternAccount, InternInstrument, InternPosition, Extends, HasPosition, ActedRows, Insert;
    hide ActionBuckets;
    hide ActionError, BucketsNonNegative;
    var i1 := InternAccount(d, c.account);
    AccountMakesNone(d, c.account, doc, inst);
    var i2 := InternInstrument(i1.d, c.instrument);
    InstrumentMakesNone(i1.d, c.instrument, doc, inst);
    ExtendsSizes(i1.d, i2.d);
    AccountRows(i1.d, i2.d, i1.row, i1.row);
    PositionMakesOne(i2.d, i1.row, i2.row, doc, inst);
  }

  /** The rows there are after an event that is not fatal. */
  lemma PositionsAfter(d: Ledger, e: Event, doc: U64, inst: U32)
    requires WellFormed(d) && !IsFatal(Dispatch(d, e).st) && (e.TradeAllocated? ==> e.a.from == e.a.to)
    ensures HasPosition(Dispatch(d, e).d, doc, inst) <==> HasPosition(d, doc, inst) || Makes(d, e, doc, inst)
  {
    if e.DayOpened? {
      hide WellFormed, HasPosition, ApplyDayOpened;
      DayMakesNone(d, e.today, e.d1, e.d2, e.previous, doc, inst);
    } else if e.ClosingPriceSet? {
      hide WellFormed, HasPosition, ApplyClosingPrice;
      PriceMakesNone(d, e.q, doc, inst);
    } else {
      hide WellFormed, HasPosition, Extends, SameTables, Prepared, Dispatch, Makes;
      PreparedThenChanged(d, e);
      SameTablesPosition(Prepared(d, e), Dispatch(d, e).d, doc, inst);
      PreparedMakes(d, e, doc, inst);
    }
  }

  lemma PreparedMakes(d: Ledger, e: Event, doc: U64, inst: U32)
    requires WellFormed(d) && !e.DayOpened? && !e.ClosingPriceSet? && (e.TradeAllocated? ==> e.a.from == e.a.to)
    requires !IsFatal(Dispatch(d, e).st)
    ensures HasPosition(Prepared(d, e), doc, inst) <==> HasPosition(d, doc, inst) || Makes(d, e, doc, inst)
  {
    hide WellFormed, HasPosition, InternAccount, InternInstrument, PreparedExecution, PreparedAction;
    hide PreparedAllocation;
    match e
    case TradeExecuted(x) => ExecutionMakes(d, x, doc, inst);
    case CorporateActionApplied(c) => ActionMakes(d, c, doc, inst);
    case TradeAllocated(a) => AllocationMakesNone(d, a, doc, inst);
    case TradeSettled(s) => SettlementMakesNone(d, s, doc, inst);
    case BatchNetted(account, _, _, _) => OrMakesNone(d, account, doc, inst);
    case DividendPaid(p) => OrMakesNone(d, p.account, doc, inst);
    case _ =>
  }

  lemma OrMakesNone(d: Ledger, account: U64, doc: U64, inst: U32)
    requires WellFormed(d)
    ensures HasPosition(Or(InternAccount(d, account), d), doc, inst) == HasPosition(d, doc, inst)
  {
    hide WellFormed, InternAccount, HasPosition;
    if InternAccount(d, account).Row? {
      AccountMakesNone(d, account, doc, inst);
    }
  }

  lemma SettlementMakesNone(d: Ledger, s: Settlement, doc: U64, inst: U32)
    requires WellFormed(d)
    ensures HasPosition(Prepared(d, TradeSettled(s)), doc, inst) == HasPosition(d, doc, inst)
  {
    hide WellFormed, InternAccount, InternInstrument, HasPosition;
    var i1 := InternAccount(d, s.account);
    if i1.Row? {
      AccountMakesNone(d, s.account, doc, inst);
      if InternInstrument(i1.d, s.instrument).Row? {
        InstrumentMakesNone(i1.d, s.instrument, doc, inst);
      }
    }
  }

  lemma AllocationMakesNone(d: Ledger, a: Allocation, doc: U64, inst: U32)
    requires WellFormed(d)
    ensures HasPosition(PreparedAllocation(d, a), doc, inst) == HasPosition(d, doc, inst)
  {
    hide WellFormed, InternAccount, HasPosition, Or;
    OrMakesNone(d, a.from, doc, inst);
    OrMakesNone(Or(InternAccount(d, a.from), d), a.to, doc, inst);
  }

  lemma DayMakesNone(d: Ledger, today: Date, d1: Date, d2: Date, previous: Date, doc: U64, inst: U32)
    requires WellFormed(d)
    ensures HasPosition(ApplyDayOpened(d, today, d1, d2, previous).d, doc, inst) == HasPosition(d, doc, inst)
    ensures FactorOf(ApplyDayOpened(d, today, d1, d2, previous).d, inst) == FactorOf(d, inst)
  {
    hide WellFormed;
  }

  lemma PriceMakesNone(d: Ledger, q: Closing, doc: U64, inst: U32)
    requires WellFormed(d)
    ensures HasPosition(ApplyClosingPrice(d, q).d, doc, inst) == HasPosition(d, doc, inst)
    ensures FactorOf(ApplyClosingPrice(d, q).d, inst)
         == if ApplyClosingPrice(d, q).st == Ok && q.instrument == inst then q.factor else FactorOf(d, inst)
    ensures ApplyClosingPrice(d, q).st == Ok || ApplyClosingPrice(d, q).d == d
    ensures ApplyClosingPrice(d, q).d.window == d.window
    ensures !IsFatal(ApplyClosingPrice(d, q).st) ==> (ApplyClosingPrice(d, q).st == Ok <==> q.factor != 0)
  {
    var i1 := InternInstrument(d, q.instrument);
    hide WellFormed, InternInstrument, HasPosition, FactorOf;
    if q.factor != 0 && i1.Row? {
      InstrumentMakesNone(d, q.instrument, doc, inst);
      ExtendsViews(d, i1.d, doc, inst);
      ExtendsTables(d, i1.d);
      var row := Instrument(q.instrument, q.symbol, q.isin, q.kind, q.factor, q.lot, q.closing, q.previous, q.date);
      Described(i1.d, i1.row, row, doc, inst);
    }
  }

  lemma Described(d: Ledger, i: nat, row: Instrument, doc: U64, inst: U32)
    requires WellFormed(d) && i < |d.instruments| && row.id == d.instruments[i].id
    ensures var e := SetInstrument(d, i, row);
            && HasPosition(e, doc, inst) == HasPosition(d, doc, inst) && e.window == d.window
            && FactorOf(e, inst) == if row.id == inst then row.factor else FactorOf(d, inst)
  {
  }

  /** Window and price factors after an event that is not fatal. */
  lemma CommonAfter(d: Ledger, e: Event, inst: U32)
    requires WellFormed(d) && !IsFatal(Dispatch(d, e).st) && (e.TradeAllocated? ==> e.a.from == e.a.to)
    ensures var r := Dispatch(d, e);
            && FactorOf(r.d, inst)
               == (if e.ClosingPriceSet? && e.q.factor != 0 && e.q.instrument == inst then e.q.factor
                   else FactorOf(d, inst))
            && r.d.window == (if e.DayOpened? && r.st == Ok then Window(e.today, e.d1, e.d2) else d.window)
  {
    hide WellFormed, FactorOf, Extends, SameTables, Prepared, ApplyTradeExecuted, ApplyTradeAllocated;
    hide ApplyTradeSettled;
    hide ApplyCorporateAction, ApplyBatchNetted, ApplyDividendPaid, Reconciled, ApplyDayOpened, ApplyClosingPrice;
    match e
    case DayOpened(today, d1, d2, previous) =>
      DayMakesNone(d, today, d1, d2, previous, 0, inst);
      DayWindow(d, today, d1, d2, previous);
    case ClosingPriceSet(q) => PriceMakesNone(d, q, 0, inst);
    case _ =>
      PreparedThenChanged(d, e);
      ExtendsViews(d, Prepared(d, e), 0, inst);
      ExtendsTables(d, Prepared(d, e));
      SameTablesPosition(Prepared(d, e), Dispatch(d, e).d, 0, inst);
      TablesWindow(Prepared(d, e), Dispatch(d, e).d);
  }

  lemma TablesWindow(d: Ledger, e: Ledger)
    requires SameTables(d, e)
    ensures e.window == d.window
  {
  }

  lemma DayWindow(d: Ledger, today: Date, d1: Date, d2: Date, previous: Date)
    requires WellFormed(d)
    ensures var r := ApplyDayOpened(d, today, d1, d2, previous);
            r.d.window == if r.st == Ok then Window(today, d1, d2) else d.window
  {
    hide WellFormed;
  }
}
