/** What is written down beside the books: the exceptions an event records, the days it opens, and the instruments it
    describes. */
module Notes {
  import opened Bytes
  import opened Status
  import opened Rounding
  import opened Calendar
  import Idempotency
  import opened Ledgers
  import opened Applying
  import opened Footprints
  import opened Figures
  import opened Blotter
  import AppliedOnce
  import OwnerViews
  import Rejections

  // ---------------------------------------------------------------- exceptions

  /** The rows of the allocated trades an owner has for a date. */
  function Netting(d: Ledger, account: U64, date: Date): set<nat>
    requires WellFormed(d)
  {
    set t | 0 <= t < |d.trades| && TicketAt(d, t).holder == account && TicketAt(d, t).date == date
            && TicketAt(d, t).state == Allocated
  }

  /** What was due on an income, rounded once. */
  ghost function Due(p: Dividend): (due: int)
    ensures IsRounded(HalfEven, p.basis * p.rate, ONE_SHARE, due)
  {
    Rounded(HalfEven, p.basis * p.rate, ONE_SHARE);
    var due :| IsRounded(HalfEven, p.basis * p.rate, ONE_SHARE, due);
    due
  }

  /** Is the income refused for its gross amount alone? */
  ghost predicate GrossIsOff(p: Dividend, st: Err) {
    && st == AmountMismatch && p.net == p.gross - p.withheld
    && -10_000_000_000_000_000 <= p.basis <= 10_000_000_000_000_000
    && -100_000_000_000_000_000 <= p.rate <= 100_000_000_000_000_000
  }

  /** The exceptions an event records: a net that differs from ours, refused, or a count that does, accepted; a delivery
      that failed; a change of custody that is not the one announced; a gross amount that is not due; and every
      divergence of a reconciliation. */
  ghost function Records(d: Ledger, e: Event): seq<ExceptionRecord>
    requires WellFormed(d)
  {
    var r := Dispatch(d, e);
    match e
    case BatchNetted(account, net, date, count) =>
      var ours, counted := Owed(d.window, date, FundsOf(d, account).pending), |Netting(d, account, date)|;
      if r.st == AmountMismatch then [ExceptionRecord(account, ours - net, 0, date, AmountMismatch)]
      else if r.st == Ok && count != 0 && counted != count then
        [ExceptionRecord(account, counted - count, 0, date, QtyMismatch)]
      else []
    case TradeSettled(s) =>
      if Mutated(e, r.st) && s.outcome == DeliveryFailure then
        [ExceptionRecord(s.account, s.qty, s.instrument, s.date, QtyMismatch)]
      else []
    case CorporateActionApplied(c) =>
      var moved := CustodyToday(BalancesOf(r.d, c.account, c.instrument))
                   - CustodyToday(BalancesOf(d, c.account, c.instrument));
      if Mutated(e, r.st) && c.verify && moved != c.qtyDelta then
        [ExceptionRecord(c.account, moved - c.qtyDelta, c.instrument, c.exDate, QtyMismatch)]
      else []
    case DividendPaid(p) =>
      if GrossIsOff(p, r.st) then [ExceptionRecord(p.account, p.gross - Due(p), p.instrument, p.exDate, AmountMismatch)]
      else []
    case CustodyReconciled(date, ds) =>
      seq(|ds|, i requires 0 <= i < |ds| =>
        ExceptionRecord(ds[i].account, ds[i].qtyDelta, ds[i].instrument, date, QtyMismatch))
    case _ => []
  }

  /** The mark of divergence, once set, stays; a divergence found or told sets it. A queue of no slots takes no record,
      and then no mark either. */
  predicate Marks(d: Ledger, e: Event, st: Err) {
    match e
    case CustodyReconciled(_, ds) => ds != [] && d.cap.exceptions > 0
    case EodMarked(_, _, diverged) => diverged && st == Ok
    case _ => false
  }

  /** The queue of exceptions and the mark, apart from the rest. */
  datatype Queue = Queue(records: seq<ExceptionRecord>, count: nat, dropped: nat, diverged: bool, slots: nat)

  function QueueOf(d: Ledger): Queue {
    Queue(d.exceptions, d.exceptionCount, d.exceptionDropped, d.diverged, d.cap.exceptions)
  }

  /** One record more, in the slot its number falls on. */
  function Pushed(q: Queue, r: ExceptionRecord, mark: bool): Queue
    requires |q.records| == Min(q.count, q.slots)
  {
    if q.slots == 0 then q
    else if q.count < q.slots then
      Queue(q.records + [r], q.count + 1, q.dropped, q.diverged || mark, q.slots)
    else
      Queue(q.records[RingSlot(q.count, q.slots) := r], q.count + 1, q.dropped + 1, q.diverged || mark, q.slots)
  }

  lemma PushedQueue(d: Ledger, r: ExceptionRecord, mark: bool)
    requires WellFormed(d)
    ensures |d.exceptions| == Min(d.exceptionCount, d.cap.exceptions)
    ensures QueueOf(PushException(d, r, mark)) == Pushed(QueueOf(d), r, mark)
  {
    hide AccountsIndexed, InstrumentsIndexed, PositionsIndexed, TradesIndexed, PositionsOwned, TradesOwned, Fits;
  }

  /** `q` is the queue of `d` with these records come in since. */
  ghost predicate Took(d: Ledger, q: Queue, news: seq<ExceptionRecord>) {
    && q.slots == d.cap.exceptions
    && (d.cap.exceptions == 0 ==> q.records == d.exceptions && q.count == d.exceptionCount
                                  && q.dropped == d.exceptionDropped)
    && (d.cap.exceptions > 0 ==>
          forall all :: Queued(d, all) ==>
            && Newest(q.records, all + news, q.slots)
            && q.count == |all + news| && q.dropped == |all + news| - |q.records|)
  }

  lemma TookNothing(d: Ledger, e: Ledger)
    requires QueueOf(e) == QueueOf(d)
    ensures Took(d, QueueOf(e), [])
  {
    forall all | d.cap.exceptions > 0 && Queued(d, all)
      ensures Newest(e.exceptions, all + [], d.cap.exceptions)
    {
      assert all + [] == all;
    }
  }

  lemma TookOne(d: Ledger, e: Ledger, r: ExceptionRecord, mark: bool, f: Ledger)
    requires WellFormed(e) && QueueOf(e) == QueueOf(d) && |e.exceptions| == Min(e.exceptionCount, e.cap.exceptions)
    requires QueueOf(f) == Pushed(QueueOf(e), r, mark)
    ensures Took(d, QueueOf(f), [r]) && f.diverged == (d.diverged || (mark && d.cap.exceptions > 0))
    ensures f.cap.exceptions == d.cap.exceptions
  {
    hide WellFormed, Newest;
    PushedQueue(e, r, mark);
    forall all | d.cap.exceptions > 0 && Queued(d, all)
      ensures Queued(f, all + [r])
    {
      assert Queued(e, all);
      PushQueues(e, all, r, mark);
    }
  }

  lemma ExtendsQueue(d: Ledger, e: Ledger)
    requires Extends(d, e)
    ensures QueueOf(e) == QueueOf(d)
  {
  }

  /** What any event, accepted or refused, records. */
  lemma RecordsTold(d: Ledger, e: Event)
    requires WellFormed(d)
    ensures var r := Dispatch(d, e);
            Took(d, QueueOf(r.d), Records(d, e)) && r.d.diverged == (d.diverged || Marks(d, e, r.st))
  {
    hide WellFormed, Took, ApplyTradeExecuted, ApplyTradeSettled, ApplyCorporateAction, ApplyTradeAllocated;
    hide ApplyBatchNetted, Reconciled, ApplyDayOpened, ApplyDividendPaid, ApplyClosingPrice, ApplyEodMarked, Netting;
    hide BalancesOf, FundsOf, CustodyToday, GrossIsOff;
    match e
    case TradeExecuted(x) =>
      ExecutionRecords(d, x);
      TookNothing(d, Dispatch(d, e).d);
    case TradeAllocated(a) =>
      AllocationRecords(d, a);
      TookNothing(d, Dispatch(d, e).d);
    case BatchNetted(account, net, date, count) => NettingRecords(d, account, net, date, count);
    case TradeSettled(s) => SettlementRecords(d, s);
    case CorporateActionApplied(c) => ActionRecords(d, c);
    case DividendPaid(p) => IncomeRecords(d, p);
    case CustodyReconciled(date, ds) => DivergencesRecords(d, date, ds, Records(d, e));
    case _ =>
      OtherRecords(d, e);
  }

  lemma ExecutionRecords(d: Ledger, x: Execution)
    requires WellFormed(d)
    ensures QueueOf(ApplyTradeExecuted(d, x).d) == QueueOf(d)
  {
    hide WellFormed, InternAccount, InternInstrument, InternPosition, ExecutionError, BucketsNonNegative, Extends;
    hide Amount, ExecuteBalances;
    if |d.trades| < d.cap.trades && x.id !in d.tradeIndex {
      var i1 := InternAccount(d, x.account);
      if i1.Row? {
        ExtendsQueue(d, i1.d);
        var i2 := InternInstrument(i1.d, x.instrument);
        if i2.Row? {
          ExtendsQueue(i1.d, i2.d);
          ExtendsSizes(i1.d, i2.d);
          if i2.d.instruments[i2.row].factor != 0 && SlotOf(i2.d.window, x.date).InSlot? {
            var i3 := InternPosition(i2.d, i1.row, i2.row);
            if i3.Row? {
              ExtendsQueue(i2.d, i3.d);
            }
          }
        }
      }
    }
  }

  lemma AllocationRecords(d: Ledger, a: Allocation)
    requires WellFormed(d)
    ensures QueueOf(ApplyTradeAllocated(d, a).d) == QueueOf(d)
  {
    hide WellFormed, InternAccount, AllocateRows, Extends;
    RowsInRange(d);
    if a.trade in d.tradeIndex && NextState(d.trades[d.tradeIndex[a.trade]].state, Allocate) != Absent {
      var i1 := InternAccount(d, a.from);
      if i1.Row? {
        ExtendsQueue(d, i1.d);
        ExtendsTables(d, i1.d);
        var i2 := InternAccount(i1.d, a.to);
        if i2.Row? {
          ExtendsQueue(i1.d, i2.d);
          ExtendsTables(i1.d, i2.d);
          ExtendsSizes(i1.d, i2.d);
          RowsRecords(i2.d, a, d.tradeIndex[a.trade], i1.row, i2.row);
        }
      }
    }
  }

  lemma RowsRecords(d: Ledger, a: Allocation, t: nat, from: nat, to: nat)
    requires WellFormed(d) && t < |d.trades| && from < |d.accounts| && to < |d.accounts|
    ensures QueueOf(AllocateRows(d, a, t, from, to).d) == QueueOf(d)
  {
    hide WellFormed, AllocateAcross;
    Rejections.TradeRow(d, t);
    var slot := SlotOf(d.window, a.date);
    if slot.InSlot? && from != to {
      AcrossRecords(d, a, t, from, to, slot.k);
    }
  }

  lemma AcrossRecords(d: Ledger, a: Allocation, t: nat, from: nat, to: nat, k: nat)
    requires WellFormed(d) && t < |d.trades| && from < |d.accounts| && to < |d.accounts| && from != to && k < 3
    requires d.trades[t].instrument < |d.instruments|
    ensures QueueOf(AllocateAcross(d, a, t, from, to, k).d) == QueueOf(d)
  {
    hide WellFormed, InternPosition, AllocationError, BucketsNonNegative, Moved, Extends;
    var i := d.trades[t].instrument;
    var i1 := InternPosition(d, from, i);
    if i1.Row? {
      ExtendsQueue(d, i1.d);
      ExtendsSizes(d, i1.d);
      ExtendsTables(d, i1.d);
      var i2 := InternPosition(i1.d, to, i);
      if i2.Row? {
        ExtendsQueue(i1.d, i2.d);
        ExtendsSizes(i1.d, i2.d);
        ExtendsTables(i1.d, i2.d);
        MovedRecords(i2.d, a, t, from, to, i1.row, i2.row, k);
      }
    }
  }

  lemma MovedRecords(d: Ledger, a: Allocation, t: nat, from: nat, to: nat, p: nat, q: nat, k: nat)
    requires WellFormed(d) && t < |d.trades| && from < |d.accounts| && to < |d.accounts| && k < 3
    requires p < |d.custody| && q < |d.custody| && d.trades[t].instrument < |d.instruments|
    ensures QueueOf(Moved(d, a, t, from, to, p, q, k)) == QueueOf(d)
  {
    hide WellFormed, AllocateFrom, AllocateTo;
  }

  /** An allocated trade of this row's, for this date. */
  predicate Waits(t: Trade, account: nat, date: Date) {
    t.account == account && t.date == date && t.state == Allocated
  }

  function Waiting(ts: seq<Trade>, account: nat, date: Date): set<nat> {
    set t | 0 <= t < |ts| && Waits(ts[t], account, date)
  }

  lemma WaitingSnoc(ts: seq<Trade>, account: nat, date: Date)
    requires ts != []
    ensures var n := |ts| - 1;
            && n !in Waiting(ts[..n], account, date)
            && Waiting(ts, account, date)
               == Waiting(ts[..n], account, date) + if Waits(ts[n], account, date) then {n} else {}
  {
    hide Waits;
  }

  lemma WaitsIsNettable(t: Trade, account: nat, date: Date)
    ensures Waits(t, account, date) <==> t.account == account && Nettable(t, date)
  {
  }

  lemma {:induction false} CountIsCard(ts: seq<Trade>, account: nat, date: Date)
    ensures CountNetted(ts, account, date) == |Waiting(ts, account, date)|
  {
    if ts == [] {
      assert Waiting(ts, account, date) == {};
    } else {
      CountIsCard(ts[..|ts| - 1], account, date);
      WaitingSnoc(ts, account, date);
      WaitsIsNettable(ts[|ts| - 1], account, date);
      hide Waiting, Waits, Nettable;
    }
  }

  lemma NettingCounts(d: Ledger, e: Ledger, account: U64, acct: nat, date: Date)
    requires WellFormed(d) && WellFormed(e) && e.trades == d.trades && Names(d, e)
    requires acct < |e.accounts| && e.accounts[acct].document == account
    ensures CountNetted(e.trades, acct, date) == |Netting(d, account, date)|
  {
    CountIsCard(e.trades, acct, date);
    HoldersRows(d, e, account, acct);
    assert Netting(d, account, date) == Waiting(e.trades, acct, date);
  }

  lemma HoldersRows(d: Ledger, e: Ledger, account: U64, acct: nat)
    requires WellFormed(d) && WellFormed(e) && e.trades == d.trades && Names(d, e)
    requires acct < |e.accounts| && e.accounts[acct].document == account
    ensures forall t :: 0 <= t < |d.trades| ==> (TicketAt(d, t).holder == account <==> d.trades[t].account == acct)
  {
    RowsInRange(d);
    DistinctOwners(e);
    hide WellFormed;
  }

  lemma DistinctOwners(d: Ledger)
    requires WellFormed(d)
    ensures forall i, j :: 0 <= i < j < |d.accounts| ==> d.accounts[i].document != d.accounts[j].document
  {
  }

  lemma NettingRecords(d: Ledger, account: U64, net: int, date: Date, count: nat)
    requires WellFormed(d)
    ensures var e := BatchNetted(account, net, date, count);
            var r := ApplyBatchNetted(d, account, net, date, count);
            Took(d, QueueOf(r.d), Records(d, e)) && r.d.diverged == d.diverged
  {
    hide WellFormed, InternAccount, CountNetted, NettedTrades, Extends, FundsOf, PushException, Took, Netting, Names;
    var i1, r := InternAccount(d, account), ApplyBatchNetted(d, account, net, date, count);
    TookNothing(d, d);
    if i1.Row? {
      ExtendsTables(d, i1.d);
      ExtendsQueue(d, i1.d);
      TookNothing(d, i1.d);
      ExtendsViews(d, i1.d, account, 0);
      AccountView(i1.d, i1.row);
      ExtendsNames(d, i1.d);
      NettingCounts(d, i1.d, account, i1.row, date);
      var slot := SlotOf(d.window, date);
      if slot.InSlot? {
        var ours := Owed(d.window, date, FundsOf(d, account).pending);
        assert ours == At(i1.d.accounts[i1.row].m.pending, slot.k);
        var counted := |Netting(d, account, date)|;
        if ours != net {
          PushedQueue(i1.d, ExceptionRecord(account, ours - net, 0, date, AmountMismatch), false);
          TookOne(d, i1.d, ExceptionRecord(account, ours - net, 0, date, AmountMismatch), false, r.d);
        } else if count != 0 && counted != count {
          var d2 := SetStates(i1.d, NettedTrades(i1.d.trades, i1.row, date));
          PushedQueue(d2, ExceptionRecord(account, counted - count, 0, date, QtyMismatch), false);
          TookOne(d, d2, ExceptionRecord(account, counted - count, 0, date, QtyMismatch), false, r.d);
        } else {
          TookNothing(d, r.d);
        }
      }
    }
  }

  lemma SettlementRecords(d: Ledger, s: Settlement)
    requires WellFormed(d)
    ensures var r := ApplyTradeSettled(d, s);
            Took(d, QueueOf(r.d), Records(d, TradeSettled(s))) && r.d.diverged == d.diverged
  {
    hide WellFormed, InternAccount, InternInstrument, SettledRows, SettleBuckets, BucketsNonNegative, Extends, Took;
    var i1, r := InternAccount(d, s.account), ApplyTradeSettled(d, s);
    TookNothing(d, d);
    if i1.Row? {
      ExtendsQueue(d, i1.d);
      TookNothing(d, i1.d);
      var i2 := InternInstrument(i1.d, s.instrument);
      if i2.Row? {
        ExtendsQueue(i1.d, i2.d);
        TookNothing(d, i2.d);
        ExtendsSizes(i1.d, i2.d);
        RowsInRange(i2.d);
        var key := PositionKey(i1.row, i2.row);
        if key in i2.d.positionIndex {
          var pos := i2.d.positionIndex[key];
          var m := SettleBuckets(i2.d.custody[pos].b, i2.d.accounts[i1.row].m, s, SlotOf(i2.d.window, s.date));
          if m.Moves? {
            SettledRowsRecords(i2.d, s, i1.row, i2.row, pos, m.b, m.m);
            if s.outcome == DeliveryFailure {
              TookOne(d, SetFunds(SetBalances(i2.d, pos, m.b), i1.row, m.m),
                      ExceptionRecord(s.account, s.qty, s.instrument, s.date, QtyMismatch), false, r.d);
            } else {
              TookNothing(d, r.d);
            }
          }
        }
      }
    }
  }

  lemma SettledRowsRecords(d: Ledger, s: Settlement, acct: nat, i: nat, pos: nat, b: Balances, m: Funds)
    requires WellFormed(d) && acct < |d.accounts| && pos < |d.custody|
    ensures |d.exceptions| == Min(d.exceptionCount, d.cap.exceptions)
    ensures var e := SetFunds(SetBalances(d, pos, b), acct, m);
            && QueueOf(e) == QueueOf(d)
            && QueueOf(SettledRows(d, s, acct, i, pos, b, m))
               == if s.outcome == DeliveryFailure then
                    Pushed(QueueOf(e), ExceptionRecord(s.account, s.qty, s.instrument, s.date, QtyMismatch), false)
                  else QueueOf(d)
  {
    hide WellFormed, SettledTrades, PushException, Pushed;
    PushedQueue(SetFunds(SetBalances(d, pos, b), acct, m),
                ExceptionRecord(s.account, s.qty, s.instrument, s.date, QtyMismatch), false);
  }

  /** What an action says it moved is what custody gained. */
  lemma MovedIsGained(b: Balances, c: Action)
    requires ActionError(c) == Ok && ActionBuckets(b, c).Acts?
    ensures ActionBuckets(b, c).moved == CustodyToday(ActionBuckets(b, c).b) - CustodyToday(b)
  {
    hide AveragePrice, ScaleTrunc, SplitBalances, MulDiv;
  }

  lemma ActionRecords(d: Ledger, c: Action)
    requires WellFormed(d)
    ensures var r := ApplyCorporateAction(d, c);
            Took(d, QueueOf(r.d), Records(d, CorporateActionApplied(c))) && r.d.diverged == d.diverged
  {
    hide WellFormed, ApplyCorporateAction, Took, BalancesOf, FundsOf, CustodyToday, ActionBuckets, ActionError, Pushed;
    Effect(d, CorporateActionApplied(c), c.account, c.instrument);
    var r, b := ApplyCorporateAction(d, c), BalancesOf(d, c.account, c.instrument);
    ActionQueue(d, c);
    TookNothing(d, d);
    if Mutated(CorporateActionApplied(c), r.st) {
      MovedIsGained(b, c);
      var moved := ActionBuckets(b, c).moved;
      if c.verify && moved != c.qtyDelta {
        TookOne(d, d, ExceptionRecord(c.account, moved - c.qtyDelta, c.instrument, c.exDate, QtyMismatch), false, r.d);
      }
    }
  }

  lemma ActionQueue(d: Ledger, c: Action)
    requires WellFormed(d)
    ensures |d.exceptions| == Min(d.exceptionCount, d.cap.exceptions)
    ensures var r, b := ApplyCorporateAction(d, c), BalancesOf(d, c.account, c.instrument);
            if Mutated(CorporateActionApplied(c), r.st) then
              && ActionError(c) == Ok && ActionBuckets(b, c).Acts?
              && QueueOf(r.d)
                 == if c.verify && ActionBuckets(b, c).moved != c.qtyDelta then
                      Pushed(QueueOf(d), ExceptionRecord(c.account, ActionBuckets(b, c).moved - c.qtyDelta,
                                                         c.instrument, c.exDate, QtyMismatch), false)
                    else QueueOf(d)
            else QueueOf(r.d) == QueueOf(d)
  {
    hide WellFormed, InternAccount, InternInstrument, InternPosition, ActOn, Extends, BalancesOf, Pushed, ActionBuckets;
    hide ActionError, PushException;
    PushedQueue(d, ExceptionRecord(0, 0, 0, 0, Ok), false);
    var i1 := InternAccount(d, c.account);
    if i1.Row? {
      ExtendsQueue(d, i1.d);
      ExtendsViews(d, i1.d, c.account, c.instrument);
      var i2 := InternInstrument(i1.d, c.instrument);
      if i2.Row? {
        ExtendsQueue(i1.d, i2.d);
        ExtendsViews(i1.d, i2.d, c.account, c.instrument);
        ExtendsSizes(i1.d, i2.d);
        AccountRows(i1.d, i2.d, i1.row, i1.row);
        var i3 := InternPosition(i2.d, i1.row, i2.row);
        if i3.Row? {
          ExtendsQueue(i2.d, i3.d);
          ExtendsViews(i2.d, i3.d, c.account, c.instrument);
          ExtendsSizes(i2.d, i3.d);
          AccountRows(i2.d, i3.d, i1.row, i1.row);
          InstrumentKept(i2.d, i3.d, i2.row);
          Indexed(i3.d, i1.row, i2.row, i3.row);
          ActRecords(i3.d, c, i1.row, i3.row);
        }
      }
    }
  }

  lemma ActRecords(d: Ledger, c: Action, acct: nat, pos: nat)
    requires WellFormed(d) && acct < |d.accounts| && pos < |d.custody|
    ensures |d.exceptions| == Min(d.exceptionCount, d.cap.exceptions)
    ensures var r, b := ActOn(d, c, acct, pos), d.custody[pos].b;
            if Mutated(CorporateActionApplied(c), r.st) then
              && ActionError(c) == Ok && ActionBuckets(b, c).Acts?
              && QueueOf(r.d)
                 == if c.verify && ActionBuckets(b, c).moved != c.qtyDelta then
                      Pushed(QueueOf(d), ExceptionRecord(c.account, ActionBuckets(b, c).moved - c.qtyDelta,
                                                         c.instrument, c.exDate, QtyMismatch), false)
                    else QueueOf(d)
            else QueueOf(r.d) == QueueOf(d)
  {
    hide WellFormed, ActionBuckets, ActionError, BucketsNonNegative, Idempotency.Insert, ActedRows, Pushed;
    PushedQueue(d, ExceptionRecord(0, 0, 0, 0, Ok), false);
    if ActionError(c) == Ok {
      var key := Idempotency.AppliedKey(c.id, acct);
      var ins := Idempotency.Insert(d.actions, key, Idempotency.TableSize(d.cap.actionsPerGen));
      if ins.New? {
        var d1, acts := WithActions(d, key, ins.after), ActionBuckets(d.custody[pos].b, c);
        if acts.Acts? {
          ActedRecords(d1, c, acct, pos, acts.b, acts.moved, acts.cash);
        }
      }
    }
  }

  lemma ActedRecords(d: Ledger, c: Action, acct: nat, pos: nat, b: Balances, moved: int, cash: int)
    requires WellFormed(d) && acct < |d.accounts| && pos < |d.custody|
    ensures |d.exceptions| == Min(d.exceptionCount, d.cap.exceptions)
    ensures QueueOf(ActedRows(d, c, acct, pos, b, moved, cash))
         == if c.verify && moved != c.qtyDelta then
              Pushed(QueueOf(d),
                     ExceptionRecord(c.account, moved - c.qtyDelta, c.instrument, c.exDate, QtyMismatch), false)
            else QueueOf(d)
  {
    hide WellFormed, PushException, Pushed;
    var m := d.accounts[acct].m;
    var d1 := SetFunds(SetBalances(d, pos, b), acct, m.(cash := m.cash + cash, income := m.income - c.withheld));
    PushedQueue(d1, ExceptionRecord(c.account, moved - c.qtyDelta, c.instrument, c.exDate, QtyMismatch), false);
  }

  lemma IncomeRecords(d: Ledger, p: Dividend)
    requires WellFormed(d)
    ensures var r := ApplyDividendPaid(d, p);
            Took(d, QueueOf(r.d), Records(d, DividendPaid(p))) && r.d.diverged == d.diverged
  {
    hide WellFormed, InternAccount, Idempotency.Insert, RoundDiv, IsRounded, PushException, DividendFunds, Extends;
    hide Took, Pushed;
    var i1, r := InternAccount(d, p.account), ApplyDividendPaid(d, p);
    RoundedUnique(HalfEven, p.basis * p.rate, ONE_SHARE, Due(p));
    TookNothing(d, d);
    if i1.Row? {
      ExtendsQueue(d, i1.d);
      if GrossIsOff(p, r.st) {
        var x := ExceptionRecord(p.account, p.gross - Due(p), p.instrument, p.exDate, AmountMismatch);
        PushedQueue(i1.d, x, false);
        TookOne(d, i1.d, x, false, r.d);
      } else {
        TookNothing(d, r.d);
      }
    }
  }

  lemma {:induction false} DivergencesRecords(d: Ledger, date: Date, ds: seq<Divergence>, news: seq<ExceptionRecord>)
    requires WellFormed(d) && |news| == |ds|
    requires forall i :: 0 <= i < |ds| ==>
               news[i] == ExceptionRecord(ds[i].account, ds[i].qtyDelta, ds[i].instrument, date, QtyMismatch)
    ensures var r := Reconciled(d, date, ds);
            && Took(d, QueueOf(r), news)
            && r.diverged == (d.diverged || (ds != [] && d.cap.exceptions > 0))
    decreases |ds|
  {
    hide WellFormed, PushException, Took;
    if ds == [] {
      assert news == [];
      TookNothing(d, d);
    } else {
      var e := PushException(d, news[0], true);
      PushedQueue(d, news[0], true);
      TookOne(d, d, news[0], true, e);
      DivergencesRecords(e, date, ds[1..], news[1..]);
      TookMore(d, e, QueueOf(Reconciled(e, date, ds[1..])), [news[0]], news[1..]);
      assert [news[0]] + news[1..] == news;
    }
  }

  lemma TookMore(d: Ledger, e: Ledger, q: Queue, some: seq<ExceptionRecord>, more: seq<ExceptionRecord>)
    requires Took(d, QueueOf(e), some) && Took(e, q, more)
    ensures Took(d, q, some + more)
  {
    hide Newest;
    forall all | d.cap.exceptions > 0 && Queued(d, all)
      ensures Newest(q.records, all + (some + more), q.slots)
      ensures q.count == |all + (some + more)| && q.dropped == |all + (some + more)| - |q.records|
    {
      assert Queued(e, all + some);
      assert all + some + more == all + (some + more);
    }
  }

  lemma OtherRecords(d: Ledger, e: Event)
    requires WellFormed(d)
    requires e.DayOpened? || e.ClosingPriceSet? || e.EodMarked? || e.Unreadable?
    ensures var r := Dispatch(d, e);
            Took(d, QueueOf(r.d), []) && r.d.diverged == (d.diverged || Marks(d, e, r.st))
  {
    hide WellFormed, Took, InternInstrument, CustodySum, CashSum, Extends;
    var r := Dispatch(d, e);
    if e.EodMarked? {
      TookNothing(d, r.d.(diverged := d.diverged));
      SameQueue(d, r.d);
    } else {
      if e.ClosingPriceSet? && InternInstrument(d, e.q.instrument).Row? {
        ExtendsQueue(d, InternInstrument(d, e.q.instrument).d);
      }
      TookNothing(d, r.d);
    }
  }

  /** The mark is no part of what the queue took. */
  lemma SameQueue(d: Ledger, e: Ledger)
    requires Took(d, QueueOf(e.(diverged := d.diverged)), [])
    ensures Took(d, QueueOf(e), [])
  {
  }

  // ---------------------------------------------------------------- days

  /** A day that opens brings its window and the day before it; nothing else moves a date. */
  lemma DaysTold(d: Ledger, e: Event)
    requires WellFormed(d)
    ensures var r := Dispatch(d, e);
            if e.DayOpened? && r.st == Ok then
              r.d.window == Window(e.today, e.d1, e.d2) && r.d.businessDate == e.today
              && r.d.prevBusinessDate == e.previous
            else AppliedOnce.SameDays(d, r.d)
  {
    hide WellFormed, ApplyTradeExecuted, ApplyTradeAllocated, ApplyTradeSettled, ApplyCorporateAction;
    hide ApplyBatchNetted, ApplyDividendPaid, Reconciled, ApplyClosingPrice;
    match e
    case DayOpened(_, _, _, _) =>
    case CorporateActionApplied(c) => AppliedOnce.ActionCourse(d, c);
    case DividendPaid(p) => AppliedOnce.DividendCourse(d, p);
    case _ => AppliedOnce.OtherCourse(d, e);
  }

  // ---------------------------------------------------------------- instruments

  /** An instrument known before keeps its row and all that is known of it. */
  ghost predicate PaperKept(d: Ledger, e: Ledger, inst: U32)
    requires WellFormed(d) && WellFormed(e)
  {
    inst in d.instrumentIndex ==>
      inst in e.instrumentIndex && e.instruments[e.instrumentIndex[inst]] == d.instruments[d.instrumentIndex[inst]]
  }

  /** A closing price describes its instrument, in full; nothing else changes what is known of any. */
  lemma PaperTold(d: Ledger, e: Event, inst: U32)
    requires WellFormed(d) && Dispatch(d, e).st == Ok
    ensures var r := Dispatch(d, e).d;
            if e.ClosingPriceSet? && e.q.instrument == inst then
              && inst in r.instrumentIndex
              && r.instruments[r.instrumentIndex[inst]]
                 == Instrument(inst, e.q.symbol, e.q.isin, e.q.kind, e.q.factor, e.q.lot, e.q.closing, e.q.previous,
                               e.q.date)
            else PaperKept(d, r, inst)
  {
    hide WellFormed, PaperKept, ApplyTradeExecuted, ApplyTradeAllocated, ApplyTradeSettled, ApplyCorporateAction;
    hide ApplyBatchNetted, ApplyDividendPaid, Reconciled, ApplyDayOpened, ApplyClosingPrice, CustodySum, CashSum;
    match e
    case ClosingPriceSet(q) => ClosingPaper(d, q, inst);
    case DayOpened(today, d1, d2, previous) => DayPaper(d, today, d1, d2, previous, inst);
    case TradeAllocated(a) => AllocationPaper(d, a, inst);
    case _ =>
      OwnerViews.PreparedThenChanged(d, e);
      PreparedPaper(d, OwnerViews.Prepared(d, e), Dispatch(d, e).d, inst);
  }

  lemma PreparedPaper(d: Ledger, m: Ledger, e: Ledger, inst: U32)
    requires WellFormed(d) && WellFormed(m) && WellFormed(e) && Extends(d, m) && OwnerViews.SameTables(m, e)
    ensures PaperKept(d, e, inst)
  {
    if inst in d.instrumentIndex {
      assert m.instruments[d.instrumentIndex[inst]] == d.instruments[d.instrumentIndex[inst]];
    }
  }

  lemma ClosingPaper(d: Ledger, q: Closing, inst: U32)
    requires WellFormed(d) && ApplyClosingPrice(d, q).st == Ok
    ensures var r := ApplyClosingPrice(d, q).d;
            if q.instrument == inst then
              && inst in r.instrumentIndex
              && r.instruments[r.instrumentIndex[inst]]
                 == Instrument(inst, q.symbol, q.isin, q.kind, q.factor, q.lot, q.closing, q.previous, q.date)
            else PaperKept(d, r, inst)
  {
    hide InternInstrument, PaperKept, Extends;
    var i1 := InternInstrument(d, q.instrument);
    OwnerViews.ExtendsItself(i1.d);
    PreparedPaper(d, i1.d, i1.d, inst);
    var row := Instrument(q.instrument, q.symbol, q.isin, q.kind, q.factor, q.lot, q.closing, q.previous, q.date);
    DescribedPaper(d, i1.d, i1.row, row, inst);
  }

  lemma DescribedPaper(d: Ledger, e: Ledger, i: nat, row: Instrument, inst: U32)
    requires WellFormed(d) && WellFormed(e) && PaperKept(d, e, inst) && i < |e.instruments|
    requires row.id == e.instruments[i].id
    ensures var r := SetInstrument(e, i, row);
            if inst == row.id then inst in r.instrumentIndex && r.instruments[r.instrumentIndex[inst]] == row
            else PaperKept(d, r, inst)
  {
  }

  lemma DayPaper(d: Ledger, today: Date, d1: Date, d2: Date, previous: Date, inst: U32)
    requires WellFormed(d)
    ensures PaperKept(d, ApplyDayOpened(d, today, d1, d2, previous).d, inst)
  {
    hide WellFormed;
  }

  lemma AllocationPaper(d: Ledger, a: Allocation, inst: U32)
    requires WellFormed(d)
    ensures PaperKept(d, ApplyTradeAllocated(d, a).d, inst)
  {
    AllocationInstruments(d, a);
    hide WellFormed, ApplyTradeAllocated;
  }

  lemma AllocationInstruments(d: Ledger, a: Allocation)
    requires WellFormed(d)
    ensures var r := ApplyTradeAllocated(d, a).d;
            r.instruments == d.instruments && r.instrumentIndex == d.instrumentIndex
  {
    hide WellFormed, AllocateRows, InternAccount, Extends;
    RowsInRange(d);
    if a.trade in d.tradeIndex && NextState(d.trades[d.tradeIndex[a.trade]].state, Allocate) != Absent {
      var i1 := InternAccount(d, a.from);
      if i1.Row? {
        AccountInstruments(d, a.from);
        ExtendsTables(d, i1.d);
        var i2 := InternAccount(i1.d, a.to);
        if i2.Row? {
          AccountInstruments(i1.d, a.to);
          ExtendsTables(i1.d, i2.d);
          ExtendsSizes(i1.d, i2.d);
          RowsInstruments(i2.d, a, d.tradeIndex[a.trade], i1.row, i2.row);
        }
      }
    }
  }

  lemma AccountInstruments(d: Ledger, doc: U64)
    requires WellFormed(d) && InternAccount(d, doc).Row?
    ensures var r := InternAccount(d, doc).d;
            r.instruments == d.instruments && r.instrumentIndex == d.instrumentIndex
  {
  }

  lemma PositionInstruments(d: Ledger, acct: nat, i: nat)
    requires WellFormed(d) && acct < |d.accounts| && i < |d.instruments| && InternPosition(d, acct, i).Row?
    ensures var r := InternPosition(d, acct, i).d;
            r.instruments == d.instruments && r.instrumentIndex == d.instrumentIndex
  {
  }

  lemma RowsInstruments(d: Ledger, a: Allocation, t: nat, from: nat, to: nat)
    requires WellFormed(d) && t < |d.trades| && from < |d.accounts| && to < |d.accounts|
    ensures var r := AllocateRows(d, a, t, from, to).d;
            r.instruments == d.instruments && r.instrumentIndex == d.instrumentIndex
  {
    hide WellFormed, InternPosition, AllocationError, BucketsNonNegative, Extends, Moved, Fixed;
    Rejections.TradeRow(d, t);
    FixedInstruments(d, t);
    var slot := SlotOf(d.window, a.date);
    if slot.InSlot? && a.qty == d.trades[t].qty && from != to {
      var i := d.trades[t].instrument;
      var i1 := InternPosition(d, from, i);
      if i1.Row? {
        PositionInstruments(d, from, i);
        ExtendsSizes(d, i1.d);
        ExtendsTables(d, i1.d);
        var i2 := InternPosition(i1.d, to, i);
        if i2.Row? {
          PositionInstruments(i1.d, to, i);
          ExtendsSizes(i1.d, i2.d);
          ExtendsTables(i1.d, i2.d);
          MovedInstruments(i2.d, a, t, from, to, i1.row, i2.row, slot.k);
          FixedInstruments(Moved(i2.d, a, t, from, to, i1.row, i2.row, slot.k), t);
        }
      }
    }
  }

  lemma FixedInstruments(d: Ledger, t: nat)
    requires WellFormed(d) && t < |d.trades|
    ensures Fixed(d, t).instruments == d.instruments && Fixed(d, t).instrumentIndex == d.instrumentIndex
  {
    hide WellFormed;
  }

  lemma MovedInstruments(d: Ledger, a: Allocation, t: nat, from: nat, to: nat, p: nat, q: nat, k: nat)
    requires WellFormed(d) && t < |d.trades| && from < |d.accounts| && to < |d.accounts| && k < 3
    requires p < |d.custody| && q < |d.custody| && d.trades[t].instrument < |d.instruments|
    ensures var r := Moved(d, a, t, from, to, p, q, k);
            r.instruments == d.instruments && r.instrumentIndex == d.instrumentIndex
  {
    hide WellFormed, AllocateFrom, AllocateTo;
  }
}
