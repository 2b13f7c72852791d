/** What a refused event leaves behind. */
module Rejections {
  import opened Bytes
  import opened Status
  import opened Rounding
  import opened Calendar
  import opened Idempotency
  import opened Ledgers
  import opened Applying
  import opened Footprints

  /** Trades, the window and the days are as they were. */
  ghost predicate SameCourse(d: Ledger, e: Ledger) {
    && e.trades == d.trades && e.tradeIndex == d.tradeIndex && e.window == d.window
    && e.businessDate == d.businessDate && e.prevBusinessDate == d.prevBusinessDate && e.cap == d.cap
    && e.income == d.income
  }

  lemma ExtendsCourse(d: Ledger, e: Ledger)
    requires Extends(d, e)
    ensures SameCourse(d, e) && e.actions == d.actions
  {
  }

  lemma ItsOwnCourse(d: Ledger)
    ensures SameCourse(d, d)
  {
  }

  lemma CourseAgain(d: Ledger, e: Ledger, f: Ledger)
    requires SameCourse(d, e) && SameCourse(e, f)
    ensures SameCourse(d, f)
  {
  }

  lemma RefusedExecution(d: Ledger, x: Execution)
    requires WellFormed(d) && !Mutated(TradeExecuted(x), ApplyTradeExecuted(d, x).st)
    ensures SameCourse(d, ApplyTradeExecuted(d, x).d) && ApplyTradeExecuted(d, x).d.actions == d.actions
  {
    hide WellFormed, InternAccount, InternInstrument, InternPosition, ExecutionError, WithTrade, BucketsNonNegative;
    hide Extends, SameCourse;
    ItsOwnCourse(d);
    var i1 := InternAccount(d, x.account);
    if i1.Row? {
      ExtendsCourse(d, i1.d);
      var i2 := InternInstrument(i1.d, x.instrument);
      if i2.Row? {
        ExtendsAgain(d, i1.d, i2.d);
        ExtendsCourse(d, i2.d);
        ExtendsTables(d, i2.d);
        ExtendsSizes(i1.d, i2.d);
        var i3 := InternPosition(i2.d, i1.row, i2.row);
        if i3.Row? {
          ExtendsAgain(d, i2.d, i3.d);
          ExtendsCourse(d, i3.d);
        }
      }
    }
  }

  lemma RefusedAllocation(d: Ledger, a: Allocation)
    requires WellFormed(d) && !Mutated(TradeAllocated(a), ApplyTradeAllocated(d, a).st)
    ensures SameCourse(d, ApplyTradeAllocated(d, a).d) && ApplyTradeAllocated(d, a).d.actions == d.actions
  {
    hide WellFormed, InternAccount, AllocateRows, Extends, SameCourse;
    ItsOwnCourse(d);
    RowsInRange(d);
    if a.trade in d.tradeIndex && NextState(d.trades[d.tradeIndex[a.trade]].state, Allocate) != Absent {
      var i1 := InternAccount(d, a.from);
      if i1.Row? {
        ExtendsCourse(d, i1.d);
        var i2 := InternAccount(i1.d, a.to);
        if i2.Row? {
          ExtendsAgain(d, i1.d, i2.d);
          ExtendsTables(d, i2.d);
          ExtendsCourse(d, i2.d);
          AccountRows(i1.d, i2.d, i1.row, i2.row);
          RefusedRows(i2.d, a, d.tradeIndex[a.trade], i1.row, i2.row);
          CourseAgain(d, i2.d, AllocateRows(i2.d, a, d.tradeIndex[a.trade], i1.row, i2.row).d);
        }
      }
    }
  }

  lemma TradeRow(d: Ledger, t: nat)
    requires WellFormed(d) && t < |d.trades|
    ensures d.trades[t].account < |d.accounts| && d.trades[t].instrument < |d.instruments|
  {
  }

  lemma RefusedRows(d: Ledger, a: Allocation, t: nat, from: nat, to: nat)
    requires WellFormed(d) && t < |d.trades| && from < |d.accounts| && to < |d.accounts|
    requires !Mutated(TradeAllocated(a), AllocateRows(d, a, t, from, to).st)
    ensures SameCourse(d, AllocateRows(d, a, t, from, to).d) && AllocateRows(d, a, t, from, to).d.actions == d.actions
  {
    hide WellFormed, AllocateAcross, Fixed, SameCourse;
    ItsOwnCourse(d);
    TradeRow(d, t);
    var slot := SlotOf(d.window, a.date);
    if slot.InSlot? && a.qty == d.trades[t].qty && from != to {
      RefusedAcross(d, a, t, from, to, slot.k);
    }
  }

  lemma RefusedAcross(d: Ledger, a: Allocation, t: nat, from: nat, to: nat, k: nat)
    requires WellFormed(d) && t < |d.trades| && from < |d.accounts| && to < |d.accounts| && from != to && k < 3
    requires d.trades[t].instrument < |d.instruments|
    requires !Mutated(TradeAllocated(a), AllocateAcross(d, a, t, from, to, k).st)
    ensures var r := AllocateAcross(d, a, t, from, to, k); SameCourse(d, r.d) && r.d.actions == d.actions
  {
    hide WellFormed, InternPosition, AllocationError, Moved, Fixed, BucketsNonNegative, Extends, SameCourse;
    ItsOwnCourse(d);
    var i := d.trades[t].instrument;
    var i1 := InternPosition(d, from, i);
    if i1.Row? {
      ExtendsCourse(d, i1.d);
      ExtendsSizes(d, i1.d);
      var i2 := InternPosition(i1.d, to, i);
      if i2.Row? {
        ExtendsAgain(d, i1.d, i2.d);
        ExtendsCourse(d, i2.d);
      }
    }
  }

  lemma RefusedSettlement(d: Ledger, s: Settlement)
    requires WellFormed(d) && !Mutated(TradeSettled(s), ApplyTradeSettled(d, s).st)
    ensures SameCourse(d, ApplyTradeSettled(d, s).d) && ApplyTradeSettled(d, s).d.actions == d.actions
  {
    hide WellFormed, InternAccount, InternInstrument, SettleBuckets, SettledRows, BucketsNonNegative, Extends;
    hide SameCourse;
    ItsOwnCourse(d);
    var i1 := InternAccount(d, s.account);
    if i1.Row? {
      ExtendsCourse(d, i1.d);
      var i2 := InternInstrument(i1.d, s.instrument);
      if i2.Row? {
        ExtendsAgain(d, i1.d, i2.d);
        ExtendsCourse(d, i2.d);
        RowsInRange(i2.d);
        ExtendsSizes(i1.d, i2.d);
      }
    }
  }

  lemma RefusedNetting(d: Ledger, account: U64, net: int, date: Date, count: nat)
    requires WellFormed(d) && ApplyBatchNetted(d, account, net, date, count).st != Ok
    ensures SameCourse(d, ApplyBatchNetted(d, account, net, date, count).d)
    ensures ApplyBatchNetted(d, account, net, date, count).d.actions == d.actions
  {
    hide WellFormed, InternAccount, CountNetted, Extends;
    var i1 := InternAccount(d, account);
    if i1.Row? {
      ExtendsCourse(d, i1.d);
    }
  }

  lemma RefusedAction(d: Ledger, c: Action)
    requires WellFormed(d) && !Mutated(CorporateActionApplied(c), ApplyCorporateAction(d, c).st)
    ensures SameCourse(d, ApplyCorporateAction(d, c).d)
  {
    hide WellFormed, InternAccount, InternInstrument, InternPosition, ActedRows, ActionBuckets, Insert, ActionError;
    hide BucketsNonNegative, Extends;
    var i1 := InternAccount(d, c.account);
    if i1.Row? {
      ExtendsCourse(d, i1.d);
      var i2 := InternInstrument(i1.d, c.instrument);
      if i2.Row? {
        ExtendsAgain(d, i1.d, i2.d);
        ExtendsCourse(d, i2.d);
        ExtendsSizes(i1.d, i2.d);
        var i3 := InternPosition(i2.d, i1.row, i2.row);
        if i3.Row? {
          ExtendsAgain(d, i2.d, i3.d);
          ExtendsCourse(d, i3.d);
        }
      }
    }
  }

  lemma RefusedDividend(d: Ledger, p: Dividend)
    requires WellFormed(d) && ApplyDividendPaid(d, p).st != Ok
    ensures SameCourse(d, ApplyDividendPaid(d, p).d) && ApplyDividendPaid(d, p).d.actions == d.actions
  {
    hide WellFormed, InternAccount, Insert, MulDiv, Extends;
    var i1 := InternAccount(d, p.account);
    if i1.Row? {
      ExtendsCourse(d, i1.d);
    }
  }

  /** A refused event leaves every balance, every trade, the window and the credited income as they were, and the
      set of applied actions too unless it is itself an action. */
  lemma RefusedLeavesState(d: Ledger, e: Event, doc: U64, inst: U32)
    requires WellFormed(d) && !Mutated(e, Dispatch(d, e).st)
    ensures var r := Dispatch(d, e);
            && BalancesOf(r.d, doc, inst) == BalancesOf(d, doc, inst) && FundsOf(r.d, doc) == FundsOf(d, doc)
            && SameCourse(d, r.d) && (!e.CorporateActionApplied? ==> r.d.actions == d.actions)
  {
    hide WellFormed, BalancesOf, FundsOf, ApplyTradeExecuted, ApplyTradeAllocated, ApplyTradeSettled;
    hide ApplyCorporateAction, ApplyBatchNetted, Reconciled, ApplyDividendPaid, InternInstrument, TurnDay, Compacted;
    Effect(d, e, doc, inst);
    match e
    case TradeExecuted(x) => RefusedExecution(d, x);
    case TradeAllocated(a) => RefusedAllocation(d, a);
    case TradeSettled(s) => RefusedSettlement(d, s);
    case BatchNetted(account, net, date, count) => RefusedNetting(d, account, net, date, count);
    case CorporateActionApplied(c) => RefusedAction(d, c);
    case DividendPaid(p) => RefusedDividend(d, p);
    case _ =>
  }

  // ---------------------------------------------------------------- the key of a refused action

  lemma InsertGrows(s: TwoGen, k: AppliedKey, slots: nat)
    requires Insert(s, k, slots).New?
    ensures Insert(s, k, slots).after != s && Contains(Insert(s, k, slots).after, k)
  {
    assert k !in s.gen0 && k !in s.gen1;
  }

  /** Exactly when a refused corporate action consumes its idempotency key: when it passed the checks made first
      and is refused by those made after, a bonus that would take shares away or a subscription exercised beyond
      the rights. The source means a refusal never to consume it. */
  lemma RefusedActionKeepsKey(d: Ledger, c: Action)
    requires WellFormed(d)
    requires var st := ApplyCorporateAction(d, c).st; st != Ok && !IsFatal(st) && st != AlreadyApplied
    ensures ApplyCorporateAction(d, c).d.actions == d.actions
        <==> !(ActionError(c) == Ok && ActionBuckets(BalancesOf(d, c.account, c.instrument), c).Denies?)
  {
    hide WellFormed, InternAccount, InternInstrument, InternPosition, BalancesOf, FundsOf, ActedRows, Insert;
    hide ActionBuckets, ActionError, BucketsNonNegative;
    var i1 := InternAccount(d, c.account);
    ExtendsViews(d, i1.d, c.account, c.instrument);
    ExtendsCourse(d, i1.d);
    var i2 := InternInstrument(i1.d, c.instrument);
    ExtendsViews(i1.d, i2.d, c.account, c.instrument);
    ExtendsCourse(i1.d, i2.d);
    ExtendsSizes(i1.d, i2.d);
    var i3 := InternPosition(i2.d, i1.row, i2.row);
    ExtendsViews(i2.d, i3.d, c.account, c.instrument);
    ExtendsCourse(i2.d, i3.d);
    Indexed(i3.d, i1.row, i2.row, i3.row);
    var key, slots := AppliedKey(c.id, i1.row), TableSize(i3.d.cap.actionsPerGen);
    if Insert(i3.d.actions, key, slots).New? {
      InsertGrows(i3.d.actions, key, slots);
    }
  }

  /** What that refusal means, in figures the sender can compute. */
  lemma DeniedExactly(b: Balances, c: Action)
    requires ActionError(c) == Ok
    ensures ActionBuckets(b, c).Denies?
       <==> || (c.kind == Bonus && ScaleTrunc(CustodyToday(b), c.num, c.den).whole < CustodyToday(b))
            || (c.kind == Subscription && c.num != 0 && c.den != 0
                && c.qtyDelta > ScaleTrunc(CustodyToday(b), c.num, c.den).whole)
  {
    hide ScaleTrunc, SplitBalances, MulDiv;
  }

  /** And its price: the same action sent again, corrected, is then refused as a duplicate. */
  lemma CorrectionIsRefused(d: Ledger, c: Action, again: Action)
    requires WellFormed(d)
    requires var st := ApplyCorporateAction(d, c).st; st != Ok && !IsFatal(st) && st != AlreadyApplied
    requires ActionError(c) == Ok && ActionBuckets(BalancesOf(d, c.account, c.instrument), c).Denies?
    requires again.id == c.id && again.account == c.account && ActionError(again) == Ok
    ensures var st := ApplyCorporateAction(ApplyCorporateAction(d, c).d, again).st;
            st == AlreadyApplied || st == ArenaExhausted
  {
    hide WellFormed, InternAccount, InternInstrument, InternPosition, ActedRows, Insert;
    hide ActionBuckets, ActionError, BucketsNonNegative;
    KeyIsIn(d, c);
    var e := ApplyCorporateAction(d, c).d;
    var i1 := InternAccount(e, again.account);
    if i1.Row? {
      ExtendsCourse(e, i1.d);
      var i2 := InternInstrument(i1.d, again.instrument);
      if i2.Row? {
        ExtendsCourse(i1.d, i2.d);
        var i3 := InternPosition(i2.d, i1.row, i2.row);
        if i3.Row? {
          ExtendsCourse(i2.d, i3.d);
          SameOwnerRow(e, i1.d, again.account, i1.row);
          DuplicateSeen(i3.d.actions, AppliedKey(again.id, i1.row), TableSize(i3.d.cap.actionsPerGen));
        }
      }
    }
  }

  lemma DuplicateSeen(s: TwoGen, k: AppliedKey, slots: nat)
    requires Contains(s, k)
    ensures Insert(s, k, slots) == Duplicate
  {
  }

  lemma SameOwnerRow(d: Ledger, e: Ledger, doc: U64, row: nat)
    requires WellFormed(d) && WellFormed(e) && Extends(d, e) && doc in d.accountIndex
    requires row < |e.accounts| && e.accounts[row].document == doc
    ensures row == d.accountIndex[doc]
  {
  }

  /** The key a denied action leaves behind. */
  lemma KeyIsIn(d: Ledger, c: Action)
    requires WellFormed(d)
    requires var st := ApplyCorporateAction(d, c).st; st != Ok && !IsFatal(st) && st != AlreadyApplied
    requires ActionError(c) == Ok && ActionBuckets(BalancesOf(d, c.account, c.instrument), c).Denies?
    ensures var e := ApplyCorporateAction(d, c).d;
            c.account in e.accountIndex && Contains(e.actions, AppliedKey(c.id, e.accountIndex[c.account]))
  {
    hide WellFormed, InternAccount, InternInstrument, InternPosition, BalancesOf, FundsOf, ActedRows, Insert;
    hide ActionBuckets, ActionError, BucketsNonNegative;
    var i1 := InternAccount(d, c.account);
    ExtendsViews(d, i1.d, c.account, c.instrument);
    var i2 := InternInstrument(i1.d, c.instrument);
    ExtendsViews(i1.d, i2.d, c.account, c.instrument);
    ExtendsSizes(i1.d, i2.d);
    var i3 := InternPosition(i2.d, i1.row, i2.row);
    ExtendsViews(i2.d, i3.d, c.account, c.instrument);
    Indexed(i3.d, i1.row, i2.row, i3.row);
    var key, slots := AppliedKey(c.id, i1.row), TableSize(i3.d.cap.actionsPerGen);
    InsertGrows(i3.d.actions, key, slots);
    ExtendsSizes(i1.d, i2.d);
    AccountRows(i1.d, i2.d, i1.row, i1.row);
    ExtendsSizes(i2.d, i3.d);
    AccountRows(i2.d, i3.d, i1.row, i1.row);
    OwnerRow(ApplyCorporateAction(d, c).d, i1.row);
  }

  lemma OwnerRow(d: Ledger, row: nat)
    requires WellFormed(d) && row < |d.accounts|
    ensures d.accounts[row].document in d.accountIndex && d.accountIndex[d.accounts[row].document] == row
  {
  }
}
