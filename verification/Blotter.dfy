/** The trades on the books, seen by number instead of by row, and what each event makes of them. */
module Blotter {
  import opened Bytes
  import opened Status
  import opened Rounding
  import opened Calendar
  import Idempotency
  import opened Ledgers
  import opened Applying
  import opened Footprints
  import opened Figures
  import Rejections
  import LedgerLaws

  /** A trade with the names of its holder and its instrument. */
  datatype Ticket = NoTicket | Ticket(note: U64, holder: U64, paper: U32, qty: int, price: int, cash: int, date: Date,
                                      side: nat, state: TradeState)

  function TicketAt(d: Ledger, t: nat): Ticket
    requires WellFormed(d) && t < |d.trades|
  {
    RowsInRange(d);
    var r := d.trades[t];
    Ticket(r.note, d.accounts[r.account].document, d.instruments[r.instrument].id, r.qty, r.price, r.cash, r.date,
           r.side, r.state)
  }

  function TicketOf(d: Ledger, id: U64): Ticket
    requires WellFormed(d)
  {
    RowsInRange(d);
    if id in d.tradeIndex then TicketAt(d, d.tradeIndex[id]) else NoTicket
  }

  // ---------------------------------------------------------------- names stay

  /** Rows keep the names of their owners and instruments. */
  ghost predicate Names(d: Ledger, e: Ledger) {
    && |d.accounts| <= |e.accounts| && |d.instruments| <= |e.instruments|
    && (forall i :: 0 <= i < |d.accounts| ==> e.accounts[i].document == d.accounts[i].document)
    && (forall i :: 0 <= i < |d.instruments| ==> e.instruments[i].id == d.instruments[i].id)
  }

  lemma NamesItself(d: Ledger)
    ensures Names(d, d)
  {
  }

  lemma ExtendsNames(d: Ledger, e: Ledger)
    requires Extends(d, e)
    ensures Names(d, e) && e.trades == d.trades && e.tradeIndex == d.tradeIndex
  {
  }

  lemma NamesAgain(d: Ledger, e: Ledger, f: Ledger)
    requires Names(d, e) && Names(e, f)
    ensures Names(d, f)
  {
  }

  /** The trades and their index are the same, and so are their tickets. */
  lemma TicketKept(d: Ledger, e: Ledger, id: U64)
    requires WellFormed(d) && WellFormed(e) && Names(d, e) && e.trades == d.trades && e.tradeIndex == d.tradeIndex
    ensures TicketOf(e, id) == TicketOf(d, id)
  {
    RowsInRange(d);
    hide WellFormed;
  }

  /** A trade's row is rewritten; the ticket tells how. */
  lemma TicketChanged(d: Ledger, e: Ledger, id: U64)
    requires WellFormed(d) && WellFormed(e) && Names(d, e) && |e.trades| == |d.trades| && e.tradeIndex == d.tradeIndex
    requires id in d.tradeIndex
    ensures d.tradeIndex[id] < |d.trades|
    ensures var r, s := d.trades[d.tradeIndex[id]], e.trades[d.tradeIndex[id]];
            s.account == r.account && s.instrument == r.instrument ==>
              TicketOf(e, id) == TicketOf(d, id).(note := s.note, qty := s.qty, price := s.price, cash := s.cash,
                                                  date := s.date, side := s.side, state := s.state)
  {
    RowsInRange(d);
    hide WellFormed;
  }

  // ---------------------------------------------------------------- what is said of a ticket

  /** Every trade an event concerns moves along the one edge the event stands for; no other changes in anything. */
  ghost predicate TicketTold(d: Ledger, e: Event, id: U64, was: Ticket, now: Ticket)
    requires WellFormed(d)
  {
    match e
    case TradeExecuted(x) =>
      if id != x.id then now == was
      else
        && was == NoTicket && FactorOf(d, x.instrument) > 0
        && exists gross ::
             && IsRounded(HalfEven, x.qty * x.price, QTY_PRICE_TO_MONEY * FactorOf(d, x.instrument), gross)
             && now == Ticket(x.note, x.account, x.instrument, x.qty, x.price,
                              if x.side == 1 then -gross - TotalFees(x.fees) else gross - TotalFees(x.fees),
                              x.date, x.side, Executed)
    case TradeAllocated(a) =>
      if id != a.trade then now == was
      else
        && was.Ticket? && was.state == Executed && was.qty == a.qty
        && now == was.(holder := if a.from == a.to then was.holder else a.to, state := Allocated)
    case BatchNetted(account, _, date, _) =>
      if was.Ticket? && was.holder == account && was.date == date && was.state == Allocated then
        now == was.(state := Netted)
      else now == was
    case TradeSettled(s) =>
      if was.Ticket? && was.holder == s.account && was.paper == s.instrument && was.date == s.date && was.side == s.side
      then
        match s.outcome
        case SettledInFull => now == if was.state == Netted then was.(state := Settled) else was
        case DeliveryFailure => now == if was.state == Netted then was.(state := DeliveryFailed) else was
        case BoughtIn => now == if was.state == DeliveryFailed then was.(state := Netted) else was
        case UnknownOutcome => false
      else now == was
    case DayOpened(today, d1, d2, _) =>
      if was.Ticket? && was.state == Settled && !InWindow(Window(today, d1, d2), was.date) then now == NoTicket
      else now == was
    case _ => now == was
  }

  /** After an accepted event, of every trade. */
  lemma TicketsTold(d: Ledger, e: Event, id: U64)
    requires WellFormed(d) && Dispatch(d, e).st == Ok
    ensures TicketTold(d, e, id, TicketOf(d, id), TicketOf(Dispatch(d, e).d, id))
  {
    hide WellFormed, TicketOf, FactorOf, TicketTold, ApplyTradeExecuted, ApplyTradeSettled, ApplyCorporateAction;
    hide ApplyTradeAllocated, ApplyBatchNetted, Reconciled, ApplyDayOpened, ApplyDividendPaid, ApplyClosingPrice;
    hide ApplyEodMarked;
    match e
    case DayOpened(today, d1, d2, previous) => DayTicket(d, today, d1, d2, previous, id);
    case TradeExecuted(x) => ExecutedTicket(d, x, id);
    case TradeAllocated(a) => AllocatedTicket(d, a, id);
    case BatchNetted(account, net, date, count) => NettedTicket(d, account, net, date, count, id);
    case TradeSettled(s) => SettledTicket(d, s, id);
    case _ => OtherTicket(d, e, id);
  }

  lemma ExecutedTicket(d: Ledger, x: Execution, id: U64)
    requires WellFormed(d) && ApplyTradeExecuted(d, x).st == Ok
    ensures TicketTold(d, TradeExecuted(x), id, TicketOf(d, id), TicketOf(ApplyTradeExecuted(d, x).d, id))
  {
    LedgerLaws.ExecutedGuard(d, x);
    hide WellFormed, InternAccount, InternInstrument, InternPosition, WithTrade, ExecutionError, BucketsNonNegative;
    hide Extends, FactorOf, TicketOf, TicketTold, Names;
    var i1 := InternAccount(d, x.account);
    var i2 := InternInstrument(i1.d, x.instrument);
    var i3 := InternPosition(i2.d, i1.row, i2.row);
    ExtendsSizes(i1.d, i2.d);
    ExtendsSizes(i2.d, i3.d);
    AccountRows(i1.d, i2.d, i1.row, i1.row);
    AccountRows(i2.d, i3.d, i1.row, i1.row);
    InstrumentKept(i2.d, i3.d, i2.row);
    ExtendsAgain(d, i1.d, i2.d);
    ExtendsAgain(d, i2.d, i3.d);
    ExtendsTables(d, i2.d);
    ExtendsNames(d, i3.d);
    TicketKept(d, i3.d, id);
    Indexed(i3.d, i1.row, i2.row, i3.row);
    ExtendsViews(d, i3.d, x.account, x.instrument);
    var k := SlotOf(d.window, x.date).k;
    TradedTicket(d, i3.d, x, i1.row, i2.row, i3.row, k, id);
  }

  lemma TradedTicket(was: Ledger, d: Ledger, x: Execution, acct: nat, i: nat, pos: nat, k: nat, id: U64)
    requires WellFormed(was) && WellFormed(d) && TicketOf(was, id) == TicketOf(d, id)
    requires acct < |d.accounts| && i < |d.instruments| && pos < |d.custody| && k < 3
    requires d.instruments[i].factor > 0 && x.id !in d.tradeIndex && |d.trades| < d.cap.trades
    requires d.accounts[acct].document == x.account && d.instruments[i].id == x.instrument
    requires FactorOf(was, x.instrument) == d.instruments[i].factor
    ensures TicketTold(was, TradeExecuted(x), id, TicketOf(was, id), TicketOf(WithTrade(d, x, acct, i, pos, k), id))
  {
    hide WellFormed, FactorOf, TicketOf, Names, TotalFees, RoundDiv, IsRounded;
    var factor := d.instruments[i].factor;
    TradedShape(d, x, acct, i, pos, k);
    var amount := Amount(x, factor);
    var t := Trade(x.id, x.note, acct, i, x.qty, x.price, amount, x.date, x.side, Executed);
    AddedTicket(d, WithTrade(d, x, acct, i, pos, k), t, id);
    Absentee(d, x.id);
    Rounded(HalfEven, x.qty * x.price, QTY_PRICE_TO_MONEY * factor);
    var gross := Notional(x.qty, x.price, factor);
    assert IsRounded(HalfEven, x.qty * x.price, QTY_PRICE_TO_MONEY * factor, gross);
    hide Notional, WithTrade;
  }

  lemma Absentee(d: Ledger, id: U64)
    requires WellFormed(d) && id !in d.tradeIndex
    ensures TicketOf(d, id) == NoTicket
  {
  }

  lemma TradedShape(d: Ledger, x: Execution, acct: nat, i: nat, pos: nat, k: nat)
    requires WellFormed(d) && acct < |d.accounts| && i < |d.instruments| && pos < |d.custody| && k < 3
    requires d.instruments[i].factor > 0 && x.id !in d.tradeIndex && |d.trades| < d.cap.trades
    ensures var r, amount := WithTrade(d, x, acct, i, pos, k), Amount(x, d.instruments[i].factor);
            && r.trades
               == d.trades + [Trade(x.id, x.note, acct, i, x.qty, x.price, amount, x.date, x.side, Executed)]
            && r.tradeIndex == d.tradeIndex[x.id := |d.trades|] && Names(d, r)
  {
    hide WellFormed, Amount, ExecuteBalances;
  }

  /** One trade more, of a new number. */
  lemma AddedTicket(d: Ledger, e: Ledger, t: Trade, id: U64)
    requires WellFormed(d) && WellFormed(e) && Names(d, e) && t.id !in d.tradeIndex
    requires e.trades == d.trades + [t] && e.tradeIndex == d.tradeIndex[t.id := |d.trades|]
    requires t.account < |d.accounts| && t.instrument < |d.instruments|
    ensures TicketOf(e, id)
         == if id != t.id then TicketOf(d, id)
            else Ticket(t.note, d.accounts[t.account].document, d.instruments[t.instrument].id, t.qty, t.price, t.cash,
                        t.date, t.side, t.state)
  {
    RowsInRange(d);
    hide WellFormed;
  }

  lemma AllocatedTicket(d: Ledger, a: Allocation, id: U64)
    requires WellFormed(d) && ApplyTradeAllocated(d, a).st == Ok
    ensures TicketTold(d, TradeAllocated(a), id, TicketOf(d, id), TicketOf(ApplyTradeAllocated(d, a).d, id))
  {
    hide WellFormed, InternAccount, AllocateRows, Extends, TicketOf, Names;
    RowsInRange(d);
    var i1 := InternAccount(d, a.from);
    var i2 := InternAccount(i1.d, a.to);
    ExtendsAgain(d, i1.d, i2.d);
    ExtendsNames(d, i2.d);
    TicketKept(d, i2.d, id);
    ExtendsSizes(i1.d, i2.d);
    AccountRows(i1.d, i2.d, i1.row, i2.row);
    RowsTicket(i2.d, a, d.tradeIndex[a.trade], i1.row, i2.row, id);
  }

  lemma RowsTicket(d: Ledger, a: Allocation, t: nat, from: nat, to: nat, id: U64)
    requires WellFormed(d) && a.trade in d.tradeIndex && t == d.tradeIndex[a.trade] && t < |d.trades|
    requires from < |d.accounts| && to < |d.accounts| && (from == to <==> a.from == a.to)
    requires d.accounts[to].document == a.to
    requires NextState(d.trades[t].state, Allocate) != Absent && AllocateRows(d, a, t, from, to).st == Ok
    ensures TicketTold(d, TradeAllocated(a), id, TicketOf(d, id), TicketOf(AllocateRows(d, a, t, from, to).d, id))
  {
    hide WellFormed, AllocateAcross, TicketOf;
    Rejections.TradeRow(d, t);
    var slot := SlotOf(d.window, a.date);
    if from == to {
      NamesItself(d);
      FixedTicket(d, a, t, from, to, id, d);
    } else {
      AcrossTicket(d, a, t, from, to, slot.k, id);
    }
  }

  /** The trade, already with its holder, moves along its edge. */
  lemma FixedTicket(d: Ledger, a: Allocation, t: nat, from: nat, to: nat, id: U64, e: Ledger)
    requires WellFormed(d) && WellFormed(e) && Names(d, e) && e.tradeIndex == d.tradeIndex
    requires a.trade in d.tradeIndex && t == d.tradeIndex[a.trade] && t < |d.trades| && to < |d.accounts|
    requires NextState(d.trades[t].state, Allocate) != Absent && a.qty == d.trades[t].qty
    requires d.accounts[to].document == a.to && (from == to <==> a.from == a.to)
    requires e.trades == if from == to then d.trades else d.trades[t := d.trades[t].(account := to)]
    ensures TicketTold(d, TradeAllocated(a), id, TicketOf(d, id), TicketOf(Fixed(e, t), id))
  {
    RowsInRange(d);
    Distinct(d);
    hide WellFormed;
    assert NextState(d.trades[t].state, Allocate) == Allocated && d.trades[t].state == Executed;
  }

  lemma Distinct(d: Ledger)
    requires WellFormed(d)
    ensures forall x, y :: x in d.tradeIndex && y in d.tradeIndex && d.tradeIndex[x] == d.tradeIndex[y] ==> x == y
  {
  }

  lemma AcrossTicket(d: Ledger, a: Allocation, t: nat, from: nat, to: nat, k: nat, id: U64)
    requires WellFormed(d) && a.trade in d.tradeIndex && t == d.tradeIndex[a.trade] && t < |d.trades|
    requires from < |d.accounts| && to < |d.accounts| && from != to && k < 3 && a.from != a.to
    requires d.accounts[to].document == a.to && d.trades[t].instrument < |d.instruments|
    requires NextState(d.trades[t].state, Allocate) != Absent && a.qty == d.trades[t].qty
    requires AllocateAcross(d, a, t, from, to, k).st == Ok
    ensures TicketTold(d, TradeAllocated(a), id, TicketOf(d, id), TicketOf(AllocateAcross(d, a, t, from, to, k).d, id))
  {
    hide WellFormed, InternPosition, AllocationError, BucketsNonNegative, Moved, Fixed, Extends, TicketOf, Names;
    hide TicketTold;
    var i := d.trades[t].instrument;
    var i1 := InternPosition(d, from, i);
    ExtendsSizes(d, i1.d);
    var i2 := InternPosition(i1.d, to, i);
    ExtendsAgain(d, i1.d, i2.d);
    ExtendsNames(d, i2.d);
    ExtendsSizes(i1.d, i2.d);
    var e := Moved(i2.d, a, t, from, to, i1.row, i2.row, k);
    MovedNames(i2.d, a, t, from, to, i1.row, i2.row, k);
    NamesAgain(d, i2.d, e);
    FixedTicket(d, a, t, from, to, id, e);
  }

  lemma MovedNames(d: Ledger, a: Allocation, t: nat, from: nat, to: nat, p: nat, q: nat, k: nat)
    requires WellFormed(d) && t < |d.trades| && from < |d.accounts| && to < |d.accounts| && k < 3
    requires p < |d.custody| && q < |d.custody| && d.trades[t].instrument < |d.instruments|
    ensures var e := Moved(d, a, t, from, to, p, q, k);
            Names(d, e) && e.tradeIndex == d.tradeIndex && e.trades == d.trades[t := d.trades[t].(account := to)]
  {
    hide WellFormed, AllocateFrom, AllocateTo;
  }

  lemma NettedTicket(d: Ledger, account: U64, net: int, date: Date, count: nat, id: U64)
    requires WellFormed(d) && ApplyBatchNetted(d, account, net, date, count).st == Ok
    ensures TicketTold(d, BatchNetted(account, net, date, count), id, TicketOf(d, id),
                       TicketOf(ApplyBatchNetted(d, account, net, date, count).d, id))
  {
    hide WellFormed, InternAccount, CountNetted, Extends, Names, TicketOf;
    var i1 := InternAccount(d, account);
    ExtendsNames(d, i1.d);
    TicketKept(d, i1.d, id);
    var ts, r := NettedTrades(i1.d.trades, i1.row, date), ApplyBatchNetted(d, account, net, date, count).d;
    assert r.trades == ts && r.tradeIndex == d.tradeIndex && r.accounts == i1.d.accounts;
    assert r.instruments == i1.d.instruments;
    hide ApplyBatchNetted;
    StatesTicket(i1.d, r, id);
    OwnRow(i1.d, i1.row, id);
  }

  /** A trade is held by the owner of a row exactly when it names the row. */
  lemma OwnRow(d: Ledger, acct: nat, id: U64)
    requires WellFormed(d) && acct < |d.accounts|
    ensures id in d.tradeIndex ==>
              && d.tradeIndex[id] < |d.trades|
              && (TicketOf(d, id).holder == d.accounts[acct].document <==> d.trades[d.tradeIndex[id]].account == acct)
  {
  }

  lemma OwnPaper(d: Ledger, i: nat, id: U64)
    requires WellFormed(d) && i < |d.instruments|
    ensures id in d.tradeIndex ==>
              && d.tradeIndex[id] < |d.trades|
              && (TicketOf(d, id).paper == d.instruments[i].id <==> d.trades[d.tradeIndex[id]].instrument == i)
  {
  }

  /** Only states were rewritten. */
  lemma StatesTicket(d: Ledger, e: Ledger, id: U64)
    requires WellFormed(d) && WellFormed(e) && |e.accounts| == |d.accounts| && e.instruments == d.instruments
    requires forall i :: 0 <= i < |d.accounts| ==> e.accounts[i].document == d.accounts[i].document
    requires e.tradeIndex == d.tradeIndex && |e.trades| == |d.trades|
    requires forall i :: 0 <= i < |d.trades| ==> e.trades[i] == d.trades[i].(state := e.trades[i].state)
    ensures id !in d.tradeIndex ==> TicketOf(e, id) == TicketOf(d, id) == NoTicket
    ensures id in d.tradeIndex ==>
              && d.tradeIndex[id] < |d.trades| && TicketOf(d, id) == TicketAt(d, d.tradeIndex[id])
              && TicketOf(e, id) == TicketOf(d, id).(state := e.trades[d.tradeIndex[id]].state)
  {
    RowsInRange(d);
    hide WellFormed;
  }

  lemma SettledTicket(d: Ledger, s: Settlement, id: U64)
    requires WellFormed(d) && ApplyTradeSettled(d, s).st == Ok
    ensures TicketTold(d, TradeSettled(s), id, TicketOf(d, id), TicketOf(ApplyTradeSettled(d, s).d, id))
  {
    LedgerLaws.SettledGuard(d, s);
    KnownOutcome(d, s);
    hide WellFormed, InternAccount, InternInstrument, SettledRows, SettleBuckets, BucketsNonNegative, Extends, Names;
    hide TicketOf, TicketTold;
    var i1 := InternAccount(d, s.account);
    var i2 := InternInstrument(i1.d, s.instrument);
    ExtendsAgain(d, i1.d, i2.d);
    ExtendsNames(d, i2.d);
    TicketKept(d, i2.d, id);
    ExtendsSizes(i1.d, i2.d);
    AccountRows(i1.d, i2.d, i1.row, i1.row);
    RowsInRange(i2.d);
    var pos := i2.d.positionIndex[PositionKey(i1.row, i2.row)];
    var r := SettleBuckets(i2.d.custody[pos].b, i2.d.accounts[i1.row].m, s, SlotOf(i2.d.window, s.date));
    SettledRowsTicket(d, i2.d, s, i1.row, i2.row, pos, r.b, r.m, id);
  }

  lemma KnownOutcome(d: Ledger, s: Settlement)
    requires WellFormed(d)
    requires SettleBuckets(BalancesOf(d, s.account, s.instrument), FundsOf(d, s.account), s,
                           SlotOf(d.window, s.date)).Moves?
    ensures !s.outcome.UnknownOutcome?
  {
    hide WellFormed, BalancesOf, FundsOf;
  }

  lemma SettledRowsTicket(was: Ledger, d: Ledger, s: Settlement, acct: nat, i: nat, pos: nat, b: Balances, m: Funds,
                          id: U64)
    requires WellFormed(was) && WellFormed(d) && acct < |d.accounts| && i < |d.instruments| && pos < |d.custody|
    requires d.accounts[acct].document == s.account && d.instruments[i].id == s.instrument
    requires !s.outcome.UnknownOutcome? && TicketOf(d, id) == TicketOf(was, id)
    ensures TicketTold(was, TradeSettled(s), id, TicketOf(d, id), TicketOf(SettledRows(d, s, acct, i, pos, b, m), id))
  {
    hide WellFormed, Noted, TicketOf;
    var r := SettledRows(d, s, acct, i, pos, b, m);
    SettledShape(d, s, acct, i, pos, b, m);
    StatesTicket(d, r, id);
    OwnRow(d, acct, id);
    OwnPaper(d, i, id);
    hide SettledRows;
  }

  lemma SettledShape(d: Ledger, s: Settlement, acct: nat, i: nat, pos: nat, b: Balances, m: Funds)
    requires WellFormed(d) && acct < |d.accounts| && i < |d.instruments| && pos < |d.custody|
    ensures var r := SettledRows(d, s, acct, i, pos, b, m);
            && r.tradeIndex == d.tradeIndex && r.instruments == d.instruments && |r.accounts| == |d.accounts|
            && (forall j :: 0 <= j < |d.accounts| ==> r.accounts[j].document == d.accounts[j].document)
            && r.trades == SettledTrades(d.trades, acct, i, s.date, s.side, TriggerOf(s.outcome))
            && (forall j :: 0 <= j < |d.trades| ==> r.trades[j] == d.trades[j].(state := r.trades[j].state))
  {
    hide WellFormed, Noted, SlotOf, TriggerOf;
  }

  lemma DayTicket(d: Ledger, today: Date, d1: Date, d2: Date, previous: Date, id: U64)
    requires WellFormed(d) && ApplyDayOpened(d, today, d1, d2, previous).st == Ok
    ensures TicketTold(d, DayOpened(today, d1, d2, previous), id, TicketOf(d, id),
                       TicketOf(ApplyDayOpened(d, today, d1, d2, previous).d, id))
  {
    hide WellFormed, Surviving, Reindexed;
    var w := Window(today, d1, d2);
    var e, r := TurnDay(d, today, w, previous), ApplyDayOpened(d, today, d1, d2, previous).d;
    SurvivingFrom(e.trades, w);
    FoundBy(d, id);
    FoundBy(r, id);
    RowsInRange(d);
    RowsInRange(r);
  }

  /** A trade is found by its number: the index names a row exactly when some row bears it, and that row it names. */
  lemma FoundBy(d: Ledger, id: U64)
    requires WellFormed(d)
    ensures id in d.tradeIndex ==> d.tradeIndex[id] < |d.trades| && d.trades[d.tradeIndex[id]].id == id
                                   && d.trades[d.tradeIndex[id]] in d.trades
    ensures forall t :: t in d.trades && t.id == id ==> id in d.tradeIndex && t == d.trades[d.tradeIndex[id]]
  {
  }

  lemma OtherTicket(d: Ledger, e: Event, id: U64)
    requires WellFormed(d) && Dispatch(d, e).st == Ok
    requires !e.DayOpened? && !e.TradeExecuted? && !e.TradeAllocated? && !e.BatchNetted? && !e.TradeSettled?
    ensures TicketTold(d, e, id, TicketOf(d, id), TicketOf(Dispatch(d, e).d, id))
  {
    hide WellFormed, TicketOf, ApplyCorporateAction, ApplyDividendPaid, ApplyClosingPrice, Reconciled, CustodySum;
    hide CashSum;
    match e
    case CorporateActionApplied(c) =>
      ActionNames(d, c);
      TicketKept(d, ApplyCorporateAction(d, c).d, id);
    case DividendPaid(p) =>
      DividendNames(d, p);
      TicketKept(d, ApplyDividendPaid(d, p).d, id);
    case ClosingPriceSet(q) =>
      ClosingNames(d, q);
      TicketKept(d, ApplyClosingPrice(d, q).d, id);
    case CustodyReconciled(date, ds) =>
      ReconciledNames(d, date, ds);
      TicketKept(d, Reconciled(d, date, ds), id);
    case EodMarked(_, _, _) => TicketKept(d, Dispatch(d, e).d, id);
    case _ =>
  }

  lemma ActionNames(d: Ledger, c: Action)
    requires WellFormed(d) && ApplyCorporateAction(d, c).st == Ok
    ensures var e := ApplyCorporateAction(d, c).d;
            Names(d, e) && e.trades == d.trades && e.tradeIndex == d.tradeIndex
  {
    hide WellFormed, InternAccount, InternInstrument, InternPosition, ActionBuckets, ActionError, BucketsNonNegative;
    hide Extends, Names, ActedRows, Idempotency.Insert;
    var i1 := InternAccount(d, c.account);
    var i2 := InternInstrument(i1.d, c.instrument);
    ExtendsSizes(i1.d, i2.d);
    var i3 := InternPosition(i2.d, i1.row, i2.row);
    ExtendsAgain(d, i1.d, i2.d);
    ExtendsAgain(d, i2.d, i3.d);
    ExtendsNames(d, i3.d);
    ExtendsSizes(i2.d, i3.d);
    var key := Idempotency.AppliedKey(c.id, i1.row);
    var ins := Idempotency.Insert(i3.d.actions, key, Idempotency.TableSize(i3.d.cap.actionsPerGen));
    var e := WithActions(i3.d, key, ins.after);
    var acts := ActionBuckets(e.custody[i3.row].b, c);
    ActedNames(e, c, i1.row, i3.row, acts.b, acts.moved, acts.cash);
    SameNames(i3.d, e);
    NamesAgain(d, i3.d, e);
    NamesAgain(d, e, ActedRows(e, c, i1.row, i3.row, acts.b, acts.moved, acts.cash));
  }

  lemma SameNames(d: Ledger, e: Ledger)
    requires e.accounts == d.accounts && e.instruments == d.instruments
    ensures Names(d, e)
  {
  }

  lemma ActedNames(d: Ledger, c: Action, acct: nat, pos: nat, b: Balances, moved: int, cash: int)
    requires WellFormed(d) && acct < |d.accounts| && pos < |d.custody|
    ensures var e := ActedRows(d, c, acct, pos, b, moved, cash);
            Names(d, e) && e.trades == d.trades && e.tradeIndex == d.tradeIndex
  {
    hide WellFormed, Noted;
  }

  lemma DividendNames(d: Ledger, p: Dividend)
    requires WellFormed(d) && ApplyDividendPaid(d, p).st == Ok
    ensures var e := ApplyDividendPaid(d, p).d;
            Names(d, e) && e.trades == d.trades && e.tradeIndex == d.tradeIndex
  {
    hide WellFormed, InternAccount, Idempotency.Insert, MulDiv, Extends, DividendFunds, PushException, Names;
    var i1, e := InternAccount(d, p.account), ApplyDividendPaid(d, p).d;
    ExtendsNames(d, i1.d);
    FundsNames(i1.d, e);
    NamesAgain(d, i1.d, e);
  }

  lemma FundsNames(d: Ledger, e: Ledger)
    requires |e.accounts| == |d.accounts| && e.instruments == d.instruments
    requires forall i :: 0 <= i < |d.accounts| ==> e.accounts[i] == d.accounts[i].(m := e.accounts[i].m)
    ensures Names(d, e)
  {
  }

  lemma ClosingNames(d: Ledger, q: Closing)
    requires WellFormed(d)
    ensures var e := ApplyClosingPrice(d, q).d;
            Names(d, e) && e.trades == d.trades && e.tradeIndex == d.tradeIndex
  {
    hide WellFormed, InternInstrument, Extends;
    var i1 := InternInstrument(d, q.instrument);
    if i1.Row? {
      ExtendsNames(d, i1.d);
    }
  }

  lemma {:induction false} ReconciledNames(d: Ledger, date: Date, ds: seq<Divergence>)
    requires WellFormed(d)
    ensures var e := Reconciled(d, date, ds);
            Names(d, e) && e.trades == d.trades && e.tradeIndex == d.tradeIndex
    decreases |ds|
  {
    hide WellFormed;
    if ds != [] {
      var x := ExceptionRecord(ds[0].account, ds[0].qtyDelta, ds[0].instrument, date, QtyMismatch);
      ReconciledNames(PushException(d, x, true), date, ds[1..]);
    }
  }
}
