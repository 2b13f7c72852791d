/** Exactly when a bucket goes negative, which is when the check made after each mutation fires. */
module BucketLaws {
  import opened Bytes
  import opened Status
  import opened Rounding
  import opened Calendar
  import opened Idempotency
  import opened Ledgers
  import opened Applying
  import opened Footprints
  import LedgerLaws
  import Rejections
  import opened OwnerViews

  ghost predicate NoBucketNegative(d: Ledger) {
    forall i :: 0 <= i < |d.custody| ==> BucketsNonNegative(d.custody[i].b)
  }

  ghost predicate TradesPositive(ts: seq<Trade>) {
    forall i :: 0 <= i < |ts| ==> ts[i].qty > 0
  }

  // ---------------------------------------------------------------- the guards

  /** A settlement of these buckets takes none below zero. Only what is added could: what is subtracted was checked. */
  predicate SettlementSafe(b: Balances, s: Settlement) {
    match s.outcome
    case DeliveryFailure => if s.side == BUY then b.overdueBuy + s.qty >= 0 else b.overdueSell + s.qty >= 0
    case _ => s.side == BUY ==> b.shortAllowed || b.available + s.qty >= 0
  }

  /** The leftovers of a position after a split: its own, scaled, and the fractions cut off what is free and blocked. */
  function SplitLeftovers(b: Balances, num: nat, den: nat): int
    requires den > 0
  {
    ScaleKeep(b.leftovers, num, den)
    + ScaleTrunc(b.available, num, den).leftover + ScaleTrunc(b.blocked, num, den).leftover
  }

  /** A corporate action takes no bucket below zero. Of a short position the fractions cut off are negative. */
  predicate ActionSafe(b: Balances, c: Action)
    requires ActionError(c) == Ok
  {
    match c.kind
    case Bonus => b.leftovers + ScaleTrunc(CustodyToday(b), c.num, c.den).leftover >= 0
    case Subscription => true
    case LeftoversAuction => true
    case _ => SplitLeftovers(b, c.num, c.den) >= 0
  }

  /** The event, if it reaches the books, takes no bucket of its owner below zero. */
  predicate Safe(d: Ledger, e: Event)
    requires WellFormed(d)
  {
    match e
    case TradeSettled(s) => SettlementSafe(BalancesOf(d, s.account, s.instrument), s)
    case CorporateActionApplied(c) =>
      ActionError(c) == Ok ==> ActionSafe(BalancesOf(d, c.account, c.instrument), c)
    case _ => true
  }

  /** The settlement finds its rows, and passes the checks made before the books change. */
  predicate SettlementArrives(d: Ledger, s: Settlement)
    requires WellFormed(d)
  {
    && |d.accounts| < d.cap.accounts && |d.instruments| < d.cap.instruments
    && HasPosition(d, s.account, s.instrument)
    && SettleBuckets(BalancesOf(d, s.account, s.instrument), FundsOf(d, s.account), s, SlotOf(d.window, s.date)).Moves?
  }

  /** The row an owner has, or will be given. */
  function RowFor(d: Ledger, doc: U64): nat {
    if doc in d.accountIndex then d.accountIndex[doc] else |d.accounts|
  }

  /** The action finds its rows and a place for its key, which is new, and passes the checks. */
  predicate ActionArrives(d: Ledger, c: Action)
    requires WellFormed(d)
  {
    && |d.accounts| < d.cap.accounts && |d.instruments| < d.cap.instruments && |d.custody| < d.cap.positions
    && ActionError(c) == Ok
    && Insert(d.actions, AppliedKey(c.id, RowFor(d, c.account)), TableSize(d.cap.actionsPerGen)).New?
    && ActionBuckets(BalancesOf(d, c.account, c.instrument), c).Acts?
  }

  /** The events that corrupt a ledger, told from the ledger they meet. */
  predicate Corrupts(d: Ledger, e: Event)
    requires WellFormed(d)
  {
    && !Safe(d, e)
    && match e
       case TradeSettled(s) => SettlementArrives(d, s)
       case CorporateActionApplied(c) => ActionArrives(d, c)
       case _ => false
  }

  // ---------------------------------------------------------------- bucket by bucket

  lemma TurnNonNegative(t: Three, from: Window, to: Window)
    requires NoneNegative(t)
    ensures NoneNegative(Turn(t, from, to).kept) && Turn(t, from, to).out >= 0
  {
  }

  lemma RotationNonNegative(b: Balances, from: Window, to: Window)
    requires BucketsNonNegative(b)
    ensures BucketsNonNegative(RotateBalances(b, from, to))
  {
    hide Turn;
    TurnNonNegative(b.pendingBuy, from, to);
    TurnNonNegative(b.pendingSell, from, to);
  }

  lemma ExecutionNonNegative(x: Execution, b: Balances, k: nat)
    requires BucketsNonNegative(b) && ExecutionError(x, b) == Ok && k < 3
    ensures BucketsNonNegative(ExecuteBalances(b, x.side == BUY, k, x.qty, x.shortFlag))
  {
  }

  lemma AllocationNonNegative(a: Allocation, from: Balances, to: Balances, k: nat)
    requires BucketsNonNegative(from) && BucketsNonNegative(to) && k < 3 && a.qty > 0
    requires AllocationError(a, from, to, k) == Ok
    ensures BucketsNonNegative(AllocateFrom(from, a.side == BUY, k, a.qty))
    ensures BucketsNonNegative(AllocateTo(to, a.side == BUY, k, a.qty))
  {
  }

  lemma SettlementExactly(b: Balances, m: Funds, s: Settlement, slot: Slot)
    requires BucketsNonNegative(b) && (slot.InSlot? ==> slot.k < 3)
    requires SettleBuckets(b, m, s, slot).Moves?
    ensures BucketsNonNegative(SettleBuckets(b, m, s, slot).b) <==> SettlementSafe(b, s)
  {
    hide AveragePrice;
  }

  lemma ScaledThree(t: Three, num: nat, den: nat)
    requires NoneNegative(t) && num > 0 && den > 0
    ensures NoneNegative(ScaleThree(t, num, den))
  {
    hide ScaleKeep;
    ScaledBound(t.d0, num, den);
    ScaledBound(t.d1, num, den);
    ScaledBound(t.d2, num, den);
  }

  lemma SplitExactly(b: Balances, num: nat, den: nat)
    requires BucketsNonNegative(b) && num > 0 && den > 0
    ensures BucketsNonNegative(SplitBalances(b, num, den)) <==> SplitLeftovers(b, num, den) >= 0
  {
    hide ScaleKeep, ScaleTrunc, ScalePrice, ScaleThree;
    if b.available >= 0 {
      ScaledBound(b.available, num, den);
    }
    ScaledBound(b.blocked, num, den);
    ScaledBound(b.leftovers, num, den);
    ScaledBound(b.overdueBuy, num, den);
    ScaledBound(b.overdueSell, num, den);
    ScaledThree(b.pendingBuy, num, den);
    ScaledThree(b.pendingSell, num, den);
  }

  lemma ActionExactly(b: Balances, c: Action)
    requires BucketsNonNegative(b) && ActionError(c) == Ok && ActionBuckets(b, c).Acts?
    ensures BucketsNonNegative(ActionBuckets(b, c).b) <==> ActionSafe(b, c)
  {
    hide ScaleTrunc, SplitBalances, SplitLeftovers, AveragePrice, MulDiv;
    match c.kind
    case Split => SplitExactly(b, c.num, c.den);
    case ReverseSplit => SplitExactly(b, c.num, c.den);
    case _ =>
  }

  /** What is enough for a sender to know: no quantity settled is negative, and a position that is not short may be
      split, grouped or given a bonus. */
  lemma EnoughForSafety(b: Balances, s: Settlement, c: Action)
    requires BucketsNonNegative(b) && ActionError(c) == Ok
    ensures s.qty >= 0 ==> SettlementSafe(b, s)
    ensures b.available >= 0 ==> ActionSafe(b, c)
  {
    hide ScaleTrunc, ScaleKeep;
    if b.available >= 0 && (c.kind == Split || c.kind == ReverseSplit || c.kind == Bonus) {
      ScaledBound(b.available, c.num, c.den);
      ScaledBound(b.blocked, c.num, c.den);
      ScaledBound(b.leftovers, c.num, c.den);
      ScaledBound(CustodyToday(b), c.num, c.den);
    }
  }

  // ---------------------------------------------------------------- event by event

  lemma ViewNonNegative(d: Ledger, doc: U64, inst: U32)
    requires WellFormed(d) && NoBucketNegative(d)
    ensures BucketsNonNegative(BalancesOf(d, doc, inst))
  {
  }

  lemma ViewsCoverRows(d: Ledger, pos: nat)
    requires WellFormed(d) && pos < |d.custody|
    ensures d.custody[pos].account < |d.accounts| && d.custody[pos].instrument < |d.instruments|
    ensures BalancesOf(d, d.accounts[d.custody[pos].account].document, d.instruments[d.custody[pos].instrument].id)
         == d.custody[pos].b
  {
  }

  lemma AfterNonNegative(d: Ledger, e: Event, doc: U64, inst: U32)
    requires WellFormed(d) && NoBucketNegative(d) && TradesPositive(d.trades) && Safe(d, e)
    requires Mutated(e, Dispatch(d, e).st)
    ensures BucketsNonNegative(BalancesAfter(d, e, doc, inst))
  {
    ViewNonNegative(d, doc, inst);
    hide WellFormed, BalancesOf, FundsOf, BucketsNonNegative, RotateBalances, ExecuteBalances, SettleBuckets;
    hide ActionBuckets;
    hide ApplyTradeExecuted, ApplyTradeAllocated, ApplyTradeSettled, ApplyCorporateAction, ExecutionError, ActionError;
    hide NoBucketNegative, TradesPositive, FactorOf, SettlementSafe, ActionSafe;
    match e
    case DayOpened(today, d1, d2, _) => RotationNonNegative(BalancesOf(d, doc, inst), d.window, Window(today, d1, d2));
    case TradeExecuted(x) =>
      LedgerLaws.ExecutedGuard(d, x);
      if x.account == doc && x.instrument == inst {
        ExecutionNonNegative(x, BalancesOf(d, doc, inst), SlotOf(d.window, x.date).k);
      }
    case TradeAllocated(a) => AllocatedNonNegative(d, a, doc, inst);
    case TradeSettled(s) =>
      LedgerLaws.SettledGuard(d, s);
      if s.account == doc && s.instrument == inst {
        SettlementExactly(BalancesOf(d, doc, inst), FundsOf(d, doc), s, SlotOf(d.window, s.date));
      }
    case CorporateActionApplied(c) =>
      LedgerLaws.ActionGuard(d, c);
      if c.account == doc && c.instrument == inst {
        ActionExactly(BalancesOf(d, doc, inst), c);
      }
    case _ =>
  }

  lemma AllocatedNonNegative(d: Ledger, a: Allocation, doc: U64, inst: U32)
    requires WellFormed(d) && NoBucketNegative(d) && TradesPositive(d.trades)
    requires Mutated(TradeAllocated(a), ApplyTradeAllocated(d, a).st)
    ensures BucketsNonNegative(BalancesAfter(d, TradeAllocated(a), doc, inst))
  {
    hide WellFormed, BalancesOf, FundsOf, BucketsNonNegative, ApplyTradeAllocated, AllocationError;
    hide AllocateFrom, AllocateTo;
    hide NoBucketNegative, TradeInstrument, LedgerLaws.AllocationHolds;
    LedgerLaws.AllocatedGuard(d, a);
    AllocationFacts(d, a);
    var i := TradeInstrument(d, a.trade);
    ViewNonNegative(d, doc, inst);
    ViewNonNegative(d, a.from, i);
    ViewNonNegative(d, a.to, i);
    if a.from != a.to {
      AllocationNonNegative(a, BalancesOf(d, a.from, i), BalancesOf(d, a.to, i), SlotOf(d.window, a.date).k);
    }
  }

  lemma AllocationFacts(d: Ledger, a: Allocation)
    requires WellFormed(d) && TradesPositive(d.trades) && LedgerLaws.AllocationHolds(d, a)
    ensures a.qty > 0 && a.trade in d.tradeIndex && SlotOf(d.window, a.date).InSlot?
    ensures var i := TradeInstrument(d, a.trade);
            a.from != a.to ==>
              AllocationError(a, BalancesOf(d, a.from, i), BalancesOf(d, a.to, i), SlotOf(d.window, a.date).k) == Ok
  {
    hide WellFormed, BalancesOf, AllocationError, TradeInstrument;
    RowsInRange(d);
  }

  lemma BucketsStayNonNegative(d: Ledger, e: Event)
    requires WellFormed(d) && NoBucketNegative(d) && TradesPositive(d.trades)
    requires Mutated(e, Dispatch(d, e).st) ==> Safe(d, e)
    ensures NoBucketNegative(Dispatch(d, e).d)
  {
    hide WellFormed, BalancesOf, FundsOf, BucketsNonNegative, Dispatch, BalancesAfter, FundsAfter;
    var r := Dispatch(d, e);
    forall pos | 0 <= pos < |r.d.custody|
      ensures BucketsNonNegative(r.d.custody[pos].b)
    {
      ViewsCoverRows(r.d, pos);
      var doc, inst := r.d.accounts[r.d.custody[pos].account].document, r.d.instruments[r.d.custody[pos].instrument].id;
      Effect(d, e, doc, inst);
      if Mutated(e, r.st) {
        AfterNonNegative(d, e, doc, inst);
      } else {
        ViewNonNegative(d, doc, inst);
      }
    }
  }

  /** Where the check after a mutation fires, a negative bucket is in plain view. */
  lemma CorruptShows(d: Ledger, e: Event)
    requires WellFormed(d) && Dispatch(d, e).st == StateCorrupt && !e.EodMarked?
    ensures !NoBucketNegative(Dispatch(d, e).d)
  {
    hide WellFormed, BalancesOf, BucketsNonNegative, InternAccount, InternInstrument, InternPosition;
    match e
    case TradeExecuted(x) => ExecutedShows(d, x);
    case TradeAllocated(a) => AllocatedShows(d, a);
    case TradeSettled(s) => SettledShows(d, s);
    case CorporateActionApplied(c) => ActionShows(d, c);
    case _ =>
  }

  lemma CheckedShows(d: Ledger, pos: nat)
    requires WellFormed(d) && pos < |d.custody| && Checked(d, pos).st == StateCorrupt
    ensures !NoBucketNegative(Checked(d, pos).d)
  {
  }

  lemma ExecutedShows(d: Ledger, x: Execution)
    requires WellFormed(d) && ApplyTradeExecuted(d, x).st == StateCorrupt
    ensures !NoBucketNegative(ApplyTradeExecuted(d, x).d)
  {
    hide WellFormed, BucketsNonNegative, InternAccount, InternInstrument, InternPosition, WithTrade;
    hide ExecutionError, Checked;
    hide NoBucketNegative;
    var i1 := InternAccount(d, x.account);
    var i2 := InternInstrument(i1.d, x.instrument);
    var i3 := InternPosition(i2.d, i1.row, i2.row);
    CheckedShows(WithTrade(i3.d, x, i1.row, i2.row, i3.row, SlotOf(i2.d.window, x.date).k), i3.row);
  }

  lemma SettledShows(d: Ledger, s: Settlement)
    requires WellFormed(d) && ApplyTradeSettled(d, s).st == StateCorrupt
    ensures !NoBucketNegative(ApplyTradeSettled(d, s).d)
  {
    hide WellFormed, BucketsNonNegative, InternAccount, InternInstrument, SettledRows, SettleBuckets, Checked;
    hide NoBucketNegative;
    var i1 := InternAccount(d, s.account);
    var i2 := InternInstrument(i1.d, s.instrument);
    RowsInRange(i2.d);
    var pos := i2.d.positionIndex[PositionKey(i1.row, i2.row)];
    var r := SettleBuckets(i2.d.custody[pos].b, i2.d.accounts[i1.row].m, s, SlotOf(i2.d.window, s.date));
    CheckedShows(SettledRows(i2.d, s, i1.row, i2.row, pos, r.b, r.m), pos);
  }

  lemma ActionShows(d: Ledger, c: Action)
    requires WellFormed(d) && ApplyCorporateAction(d, c).st == StateCorrupt
    ensures !NoBucketNegative(ApplyCorporateAction(d, c).d)
  {
    hide WellFormed, BucketsNonNegative, InternAccount, InternInstrument, InternPosition, ActedRows;
    hide ActionBuckets, Checked;
    hide NoBucketNegative, Insert, ActionError;
    var i1 := InternAccount(d, c.account);
    var i2 := InternInstrument(i1.d, c.instrument);
    var i3 := InternPosition(i2.d, i1.row, i2.row);
    var key := AppliedKey(c.id, i1.row);
    var d4 := WithActions(i3.d, key, Insert(i3.d.actions, key, TableSize(i3.d.cap.actionsPerGen)).after);
    var r := ActionBuckets(d4.custody[i3.row].b, c);
    CheckedShows(ActedRows(d4, c, i1.row, i3.row, r.b, r.moved, r.cash), i3.row);
  }

  lemma AllocatedShows(d: Ledger, a: Allocation)
    requires WellFormed(d) && ApplyTradeAllocated(d, a).st == StateCorrupt
    ensures !NoBucketNegative(ApplyTradeAllocated(d, a).d)
  {
    hide WellFormed, BucketsNonNegative, InternAccount, AllocateAcross;
    RowsInRange(d);
    var i1 := InternAccount(d, a.from);
    var i2 := InternAccount(i1.d, a.to);
    var t := d.tradeIndex[a.trade];
    RowsInRange(i2.d);
    AcrossShows(i2.d, a, t, i1.row, i2.row, SlotOf(i2.d.window, a.date).k);
  }

  lemma AcrossShows(d: Ledger, a: Allocation, t: nat, from: nat, to: nat, k: nat)
    requires WellFormed(d) && t < |d.trades| && from < |d.accounts| && to < |d.accounts| && from != to && k < 3
    requires d.trades[t].instrument < |d.instruments|
    requires AllocateAcross(d, a, t, from, to, k).st == StateCorrupt
    ensures !NoBucketNegative(AllocateAcross(d, a, t, from, to, k).d)
  {
    hide WellFormed, InternPosition, Moved, BucketsNonNegative, AllocationError;
  }

  // ---------------------------------------------------------------- when the check fires

  lemma SettledRowsAt(d: Ledger, s: Settlement, acct: nat, i: nat, pos: nat, b: Balances, m: Funds)
    requires WellFormed(d) && acct < |d.accounts| && pos < |d.custody|
    ensures SettledRows(d, s, acct, i, pos, b, m).custody[pos].b == b
  {
    hide WellFormed, Noted;
  }

  /** The buckets a settlement that arrives leaves. */
  function SettledBuckets(d: Ledger, s: Settlement): Balances
    requires WellFormed(d) && SettlementArrives(d, s)
  {
    SettleBuckets(BalancesOf(d, s.account, s.instrument), FundsOf(d, s.account), s, SlotOf(d.window, s.date)).b
  }

  /** A settlement that arrives is accepted, or found to have corrupted its position, as its buckets come out. */
  lemma SettlementOutcome(d: Ledger, s: Settlement)
    requires WellFormed(d)
    ensures ApplyTradeSettled(d, s).st == Ok <==> SettlementArrives(d, s) && BucketsNonNegative(SettledBuckets(d, s))
    ensures ApplyTradeSettled(d, s).st == StateCorrupt
       <==> SettlementArrives(d, s) && !BucketsNonNegative(SettledBuckets(d, s))
  {
    hide WellFormed, InternAccount, InternInstrument, BalancesOf, FundsOf, SettledRows, SettleBuckets, HasPosition;
    hide BucketsNonNegative, Extends;
    var i1 := InternAccount(d, s.account);
    if i1.Row? && |d.instruments| < d.cap.instruments {
      ExtendsViews(d, i1.d, s.account, s.instrument);
      AccountMakesNone(d, s.account, s.account, s.instrument);
      ExtendsTables(d, i1.d);
      AccountKeepsOthers(d, s.account);
      var i2 := InternInstrument(i1.d, s.instrument);
      ExtendsViews(i1.d, i2.d, s.account, s.instrument);
      InstrumentMakesNone(i1.d, s.instrument, s.account, s.instrument);
      ExtendsTables(i1.d, i2.d);
      ExtendsSizes(i1.d, i2.d);
      AccountRows(i1.d, i2.d, i1.row, i1.row);
      RowsInRange(i2.d);
      PositionAt(i2.d, i1.row, i2.row);
      var key := PositionKey(i1.row, i2.row);
      if key in i2.d.positionIndex {
        var pos := i2.d.positionIndex[key];
        KeyNames(i2.d, key);
        Indexed(i2.d, i1.row, i2.row, pos);
        var r := SettleBuckets(i2.d.custody[pos].b, i2.d.accounts[i1.row].m, s, SlotOf(i2.d.window, s.date));
        if r.Moves? {
          SettledRowsAt(i2.d, s, i1.row, i2.row, pos, r.b, r.m);
        }
      }
    } else if i1.Row? {
      AccountKeepsOthers(d, s.account);
      ExtendsTables(d, i1.d);
    }
  }

  lemma AccountKeepsOthers(d: Ledger, doc: U64)
    requires WellFormed(d) && InternAccount(d, doc).Row?
    ensures InternAccount(d, doc).d.instruments == d.instruments && InternAccount(d, doc).d.custody == d.custody
    ensures InternAccount(d, doc).row == RowFor(d, doc)
  {
  }

  lemma InstrumentKeepsOthers(d: Ledger, id: U32)
    requires WellFormed(d) && InternInstrument(d, id).Row?
    ensures InternInstrument(d, id).d.custody == d.custody
  {
  }

  /** And a corporate action. */
  lemma ActionOutcome(d: Ledger, c: Action)
    requires WellFormed(d)
    ensures ApplyCorporateAction(d, c).st == Ok
       <==> ActionArrives(d, c) && BucketsNonNegative(ActionBuckets(BalancesOf(d, c.account, c.instrument), c).b)
    ensures ApplyCorporateAction(d, c).st == StateCorrupt
       <==> ActionArrives(d, c) && !BucketsNonNegative(ActionBuckets(BalancesOf(d, c.account, c.instrument), c).b)
  {
    hide WellFormed, InternAccount, InternInstrument, InternPosition, BalancesOf, FundsOf, ActOn, Insert;
    hide ActionBuckets, ActionError, BucketsNonNegative, Extends;
    var i1 := InternAccount(d, c.account);
    if i1.Row? {
      ExtendsViews(d, i1.d, c.account, c.instrument);
      AccountKeepsOthers(d, c.account);
      ExtendsTables(d, i1.d);
      var i2 := InternInstrument(i1.d, c.instrument);
      if i2.Row? {
        ExtendsViews(i1.d, i2.d, c.account, c.instrument);
        InstrumentKeepsOthers(i1.d, c.instrument);
        ExtendsTables(i1.d, i2.d);
        ExtendsSizes(i1.d, i2.d);
        AccountRows(i1.d, i2.d, i1.row, i1.row);
        var i3 := InternPosition(i2.d, i1.row, i2.row);
        if i3.Row? {
          ExtendsViews(i2.d, i3.d, c.account, c.instrument);
          ExtendsTables(i2.d, i3.d);
          ExtendsSizes(i2.d, i3.d);
          AccountRows(i2.d, i3.d, i1.row, i1.row);
          InstrumentKept(i2.d, i3.d, i2.row);
          Rejections.ExtendsCourse(i2.d, i3.d);
          Rejections.ExtendsCourse(i1.d, i2.d);
          Rejections.ExtendsCourse(d, i1.d);
          Indexed(i3.d, i1.row, i2.row, i3.row);
          ActOnOutcome(i3.d, c, i1.row, i3.row);
        }
      }
    }
  }

  lemma ActOnOutcome(d: Ledger, c: Action, acct: nat, pos: nat)
    requires WellFormed(d) && acct < |d.accounts| && pos < |d.custody|
    ensures var b := d.custody[pos].b;
            var arrives := && ActionError(c) == Ok
                           && Insert(d.actions, AppliedKey(c.id, acct), TableSize(d.cap.actionsPerGen)).New?
                           && ActionBuckets(b, c).Acts?;
            && (ActOn(d, c, acct, pos).st == Ok <==> arrives && BucketsNonNegative(ActionBuckets(b, c).b))
            && (ActOn(d, c, acct, pos).st == StateCorrupt <==> arrives && !BucketsNonNegative(ActionBuckets(b, c).b))
  {
    hide WellFormed, ActionBuckets, ActionError, BucketsNonNegative, Noted, Insert;
  }

  lemma SettlementFires(d: Ledger, s: Settlement)
    requires WellFormed(d) && NoBucketNegative(d)
    ensures ApplyTradeSettled(d, s).st == StateCorrupt <==> Corrupts(d, TradeSettled(s))
    ensures ApplyTradeSettled(d, s).st == Ok ==> Safe(d, TradeSettled(s))
  {
    hide WellFormed, BalancesOf, FundsOf, HasPosition, SettleBuckets, ApplyTradeSettled, BucketsNonNegative;
    hide SettlementSafe;
    SettlementOutcome(d, s);
    ViewNonNegative(d, s.account, s.instrument);
    var b, m := BalancesOf(d, s.account, s.instrument), FundsOf(d, s.account);
    if SettleBuckets(b, m, s, SlotOf(d.window, s.date)).Moves? {
      SettlementExactly(b, m, s, SlotOf(d.window, s.date));
    }
  }

  lemma ActionFires(d: Ledger, c: Action)
    requires WellFormed(d) && NoBucketNegative(d)
    ensures ApplyCorporateAction(d, c).st == StateCorrupt <==> Corrupts(d, CorporateActionApplied(c))
    ensures ApplyCorporateAction(d, c).st == Ok ==> Safe(d, CorporateActionApplied(c))
  {
    hide WellFormed, BalancesOf, ActionBuckets, ActionError, ApplyCorporateAction, BucketsNonNegative;
    hide ActionSafe, Insert;
    ActionOutcome(d, c);
    ViewNonNegative(d, c.account, c.instrument);
    var b := BalancesOf(d, c.account, c.instrument);
    if ActionError(c) == Ok && ActionBuckets(b, c).Acts? {
      ActionExactly(b, c);
    }
  }

  lemma NeverFires(d: Ledger, e: Event)
    requires WellFormed(d)
    requires e.DayOpened? || e.BatchNetted? || e.DividendPaid? || e.ClosingPriceSet?
    ensures Dispatch(d, e).st != StateCorrupt
  {
    hide WellFormed, InternAccount, InternInstrument, TurnDay, Compacted, CountNetted, Insert, MulDiv;
  }

  lemma TradesNeverFire(d: Ledger, e: Event)
    requires Healthy(d) && (e.TradeExecuted? || e.TradeAllocated?)
    ensures Dispatch(d, e).st != StateCorrupt
  {
    hide WellFormed, NoBucketNegative, TradesPositive, Dispatch;
    BucketsStayNonNegative(d, e);
    if Dispatch(d, e).st == StateCorrupt {
      CorruptShows(d, e);
    }
  }

  /** The whole truth about the check made after a mutation: it fires on exactly the events that corrupt, and exactly
      those take a bucket below zero. */
  lemma CorruptExactly(d: Ledger, e: Event)
    requires Healthy(d)
    ensures Dispatch(d, e).st == StateCorrupt && !e.EodMarked? <==> Corrupts(d, e)
    ensures Healthy(Dispatch(d, e).d) <==> !Corrupts(d, e)
  {
    hide WellFormed, NoBucketNegative, TradesPositive, Dispatch, SettlementSafe, ActionSafe, SettlementArrives;
    hide ActionArrives;
    TradesStayPositive(d, e);
    FiresExactly(d, e);
    if Dispatch(d, e).st == StateCorrupt && !e.EodMarked? {
      CorruptShows(d, e);
    } else {
      BucketsStayNonNegative(d, e);
    }
  }

  lemma FiresExactly(d: Ledger, e: Event)
    requires Healthy(d)
    ensures Dispatch(d, e).st == StateCorrupt && !e.EodMarked? <==> Corrupts(d, e)
    ensures Mutated(e, Dispatch(d, e).st) && !Corrupts(d, e) ==> Safe(d, e)
  {
    hide WellFormed, NoBucketNegative, TradesPositive, ApplyTradeExecuted, ApplyTradeAllocated, ApplyTradeSettled;
    hide ApplyCorporateAction, ApplyBatchNetted, Reconciled, ApplyDayOpened, ApplyDividendPaid, ApplyClosingPrice;
    hide SettlementSafe, ActionSafe, SettlementArrives, ActionArrives, BalancesOf;
    match e
    case TradeSettled(s) => SettlementFires(d, s);
    case CorporateActionApplied(c) => ActionFires(d, c);
    case DayOpened(today, d1, d2, previous) => NeverFires(d, e);
    case BatchNetted(account, net, date, count) => NeverFires(d, e);
    case DividendPaid(p) => NeverFires(d, e);
    case ClosingPriceSet(q) => NeverFires(d, e);
    case TradeExecuted(x) => TradesNeverFire(d, e);
    case TradeAllocated(a) => TradesNeverFire(d, e);
    case _ =>
  }

  // ---------------------------------------------------------------- trades stay positive

  lemma SurvivingPositive(ts: seq<Trade>, w: Window)
    requires TradesPositive(ts)
    ensures TradesPositive(Surviving(ts, w))
  {
    SurvivingFrom(ts, w);
    forall i | 0 <= i < |Surviving(ts, w)|
      ensures Surviving(ts, w)[i].qty > 0
    {
      assert Surviving(ts, w)[i] in ts;
    }
  }

  lemma TradesStayPositive(d: Ledger, e: Event)
    requires WellFormed(d) && TradesPositive(d.trades)
    ensures TradesPositive(Dispatch(d, e).d.trades)
  {
    hide WellFormed, InternAccount, InternInstrument, InternPosition, PushException, SettleBuckets;
    hide ActionBuckets, Insert;
    hide ApplyTradeAllocated, ApplyTradeSettled, Surviving, TurnDay, ApplyTradeExecuted, ApplyBatchNetted;
    hide ApplyCorporateAction;
    hide ApplyDividendPaid, MulDiv, TradesPositive, Reconciled, ApplyClosingPrice;
    match e
    case DayOpened(today, d1, d2, previous) =>
      TurnKeepsTrades(d, today, Window(today, d1, d2), previous);
      SurvivingPositive(d.trades, Window(today, d1, d2));
    case TradeExecuted(x) => ExecutedPositive(d, x);
    case TradeAllocated(a) => AllocatedPositive(d, a);
    case TradeSettled(s) => SettledPositive(d, s);
    case BatchNetted(account, net, date, count) => NettedPositive(d, account, net, date, count);
    case CorporateActionApplied(c) => ActionKeepsTrades(d, c);
    case DividendPaid(p) => DividendKeepsTrades(d, p);
    case CustodyReconciled(date, ds) => ReconciledKeepsTrades(d, date, ds);
    case ClosingPriceSet(q) => ClosingKeepsTrades(d, q);
    case _ =>
  }

  lemma TurnKeepsTrades(d: Ledger, today: Date, to: Window, previous: Date)
    requires WellFormed(d)
    ensures TurnDay(d, today, to, previous).trades == d.trades && TurnDay(d, today, to, previous).window == to
  {
    hide WellFormed;
  }

  lemma ExecutedPositive(d: Ledger, x: Execution)
    requires WellFormed(d) && TradesPositive(d.trades)
    ensures TradesPositive(ApplyTradeExecuted(d, x).d.trades)
  {
    hide WellFormed, InternAccount, InternInstrument, InternPosition, BucketsNonNegative, ExecutionError;
    hide TradesPositive, WithTrade;
    forall e: Ledger, acct: nat, inst: nat, pos: nat, k: nat
      | WellFormed(e) && acct < |e.accounts| && inst < |e.instruments| && pos < |e.custody| && k < 3
        && e.instruments[inst].factor > 0 && x.id !in e.tradeIndex && |e.trades| < e.cap.trades
        && e.trades == d.trades && ExecutionError(x, e.custody[pos].b) == Ok
      ensures TradesPositive(WithTrade(e, x, acct, inst, pos, k).trades)
    {
      AddedPositive(e, x, acct, inst, pos, k);
    }
  }

  lemma AddedPositive(d: Ledger, x: Execution, acct: nat, inst: nat, pos: nat, k: nat)
    requires WellFormed(d) && acct < |d.accounts| && inst < |d.instruments| && pos < |d.custody| && k < 3
    requires d.instruments[inst].factor > 0 && x.id !in d.tradeIndex && |d.trades| < d.cap.trades
    requires TradesPositive(d.trades) && ExecutionError(x, d.custody[pos].b) == Ok
    ensures TradesPositive(WithTrade(d, x, acct, inst, pos, k).trades)
  {
    hide WellFormed, Amount, ExecuteBalances;
  }

  lemma AllocatedPositive(d: Ledger, a: Allocation)
    requires WellFormed(d) && TradesPositive(d.trades)
    ensures TradesPositive(ApplyTradeAllocated(d, a).d.trades)
  {
    hide WellFormed, InternAccount, AllocateRows, TradesPositive;
    RowsInRange(d);
    if a.trade in d.tradeIndex {
      var i1 := InternAccount(d, a.from);
      if i1.Row? {
        var i2 := InternAccount(i1.d, a.to);
        if i2.Row? {
          AllocateRowsPositive(i2.d, a, d.tradeIndex[a.trade], i1.row, i2.row);
        }
      }
    }
  }

  lemma AllocateRowsPositive(d: Ledger, a: Allocation, t: nat, from: nat, to: nat)
    requires WellFormed(d) && TradesPositive(d.trades) && t < |d.trades| && from < |d.accounts| && to < |d.accounts|
    ensures TradesPositive(AllocateRows(d, a, t, from, to).d.trades)
  {
    RowsInRange(d);
    hide WellFormed, AllocateAcross, Fixed, TradesPositive;
    FixedPositive(d, t);
    if SlotOf(d.window, a.date).InSlot? && from != to {
      AcrossPositive(d, a, t, from, to, SlotOf(d.window, a.date).k);
    }
  }

  lemma FixedPositive(d: Ledger, t: nat)
    requires WellFormed(d) && t < |d.trades| && TradesPositive(d.trades)
    ensures TradesPositive(Fixed(d, t).trades)
  {
    hide WellFormed;
  }

  lemma AcrossPositive(d: Ledger, a: Allocation, t: nat, from: nat, to: nat, k: nat)
    requires WellFormed(d) && t < |d.trades| && from < |d.accounts| && to < |d.accounts| && from != to && k < 3
    requires d.trades[t].instrument < |d.instruments| && TradesPositive(d.trades)
    ensures TradesPositive(AllocateAcross(d, a, t, from, to, k).d.trades)
  {
    hide WellFormed, InternPosition, AllocationError, BucketsNonNegative, TradesPositive, Moved, Fixed;
    var i1 := InternPosition(d, from, d.trades[t].instrument);
    if i1.Row? {
      var i2 := InternPosition(i1.d, to, d.trades[t].instrument);
      if i2.Row? {
        MovedPositive(i2.d, a, t, from, to, i1.row, i2.row, k);
        FixedPositive(Moved(i2.d, a, t, from, to, i1.row, i2.row, k), t);
      }
    }
  }

  lemma MovedPositive(d: Ledger, a: Allocation, t: nat, from: nat, to: nat, p: nat, q: nat, k: nat)
    requires WellFormed(d) && t < |d.trades| && from < |d.accounts| && to < |d.accounts| && k < 3
    requires p < |d.custody| && q < |d.custody| && d.trades[t].instrument < |d.instruments|
    requires TradesPositive(d.trades)
    ensures TradesPositive(Moved(d, a, t, from, to, p, q, k).trades)
  {
    hide WellFormed, AllocateFrom, AllocateTo;
  }

  lemma SettledPositive(d: Ledger, s: Settlement)
    requires WellFormed(d) && TradesPositive(d.trades)
    ensures TradesPositive(ApplyTradeSettled(d, s).d.trades)
  {
    hide WellFormed, InternAccount, InternInstrument, SettleBuckets, BucketsNonNegative, Noted;
  }

  lemma NettedPositive(d: Ledger, account: U64, net: int, date: Date, count: nat)
    requires WellFormed(d) && TradesPositive(d.trades)
    ensures TradesPositive(ApplyBatchNetted(d, account, net, date, count).d.trades)
  {
    hide WellFormed, InternAccount, CountNetted;
  }

  lemma ActionKeepsTrades(d: Ledger, c: Action)
    requires WellFormed(d)
    ensures ApplyCorporateAction(d, c).d.trades == d.trades
  {
    hide WellFormed, InternAccount, InternInstrument, InternPosition, ActionBuckets, BucketsNonNegative, Noted;
    hide Insert, ActionError;
  }

  lemma DividendKeepsTrades(d: Ledger, p: Dividend)
    requires WellFormed(d)
    ensures ApplyDividendPaid(d, p).d.trades == d.trades
  {
    hide WellFormed, InternAccount, Insert, MulDiv;
  }

  lemma ClosingKeepsTrades(d: Ledger, q: Closing)
    requires WellFormed(d)
    ensures ApplyClosingPrice(d, q).d.trades == d.trades
  {
    hide WellFormed, InternInstrument;
  }

  lemma {:induction false} ReconciledKeepsTrades(d: Ledger, date: Date, ds: seq<Divergence>)
    requires WellFormed(d)
    ensures Reconciled(d, date, ds).trades == d.trades
    decreases |ds|
  {
    hide WellFormed;
    if ds != [] {
      var x := ExceptionRecord(ds[0].account, ds[0].qtyDelta, ds[0].instrument, date, QtyMismatch);
      ReconciledKeepsTrades(PushException(d, x, true), date, ds[1..]);
    }
  }

  // ---------------------------------------------------------------- over whole runs

  /** What every reachable ledger satisfies while events are benign. */
  ghost predicate Healthy(d: Ledger) {
    WellFormed(d) && NoBucketNegative(d) && TradesPositive(d.trades)
  }

  /** No event of a run corrupts the ledger it meets. */
  predicate AllSafe(d: Ledger, lsn: nat, es: seq<Event>)
    requires WellFormed(d)
    decreases |es|
  {
    es == [] ||
    (!Corrupts(d, es[0]) && (IsFatal(Apply(d, lsn, es[0]).st) || AllSafe(Apply(d, lsn, es[0]).d, lsn + 1, es[1..])))
  }

  /** Over whole runs: every bucket stays non-negative exactly when no event met corrupts; then corruption is only ever
      reported by an end-of-day anchor that does not match, and otherwise the run ends in it. As every law of runs, it
      speaks of the ledger: the partition keeps to it while no event takes a trade from one who does not hold it
      (`PartitionStates.KeepsTrades`). */
  lemma {:induction false} RunHealthyExactly(d: Ledger, lsn: nat, es: seq<Event>)
    requires Healthy(d)
    ensures Healthy(Run(d, lsn, es).d) <==> AllSafe(d, lsn, es)
    ensures !AllSafe(d, lsn, es) ==> Run(d, lsn, es).st == StateCorrupt
    ensures AllSafe(d, lsn, es) && Run(d, lsn, es).st == StateCorrupt ==> exists i :: 0 <= i < |es| && es[i].EodMarked?
    decreases |es|
  {
    hide WellFormed, NoBucketNegative, TradesPositive, Dispatch, Corrupts;
    if es != [] {
      CorruptExactly(d, es[0]);
      var a := Apply(d, lsn, es[0]);
      StampHealthy(Dispatch(d, es[0]).d, lsn);
      if !IsFatal(a.st) {
        RunHealthyExactly(a.d, lsn + 1, es[1..]);
        if AllSafe(d, lsn, es) && Run(a.d, lsn + 1, es[1..]).st == StateCorrupt {
          var i :| 0 <= i < |es| - 1 && es[1..][i].EodMarked?;
          assert es[i + 1].EodMarked?;
        }
      }
    }
  }

  lemma StampHealthy(d: Ledger, lsn: nat)
    requires WellFormed(d)
    ensures WellFormed(d.(appliedLsn := lsn)) && (Healthy(d.(appliedLsn := lsn)) <==> Healthy(d))
  {
  }

  // ---------------------------------------------------------------- splits create nothing

  lemma ScaledPieces(q: int, num: nat, den: nat)
    requires q >= 0 && num > 0 && den > 0
    ensures ScaleKeep(q, num, den) * den <= q * num < ScaleKeep(q, num, den) * den + den
    ensures ScaleTrunc(q, num, den).whole + ScaleTrunc(q, num, den).leftover == ScaleKeep(q, num, den)
  {
    ScaledBound(q, num, den);
  }

  lemma SumOfSeven(a: int, b: int, c: int, d: int, e: int, f: int, g: int, m: int)
    ensures (a + b + c + d + e + f + g) * m == a * m + b * m + c * m + d * m + e * m + f * m + g * m
  {
  }

  /** A split or a grouping of a position that is nowhere short leaves at most the exact scaled quantity in custody,
      short of it by fewer than seven raw units, one for each bucket; and exactly it when the divisor is one. */
  lemma SplitCreatesNothing(b: Balances, num: nat, den: nat)
    requires BucketsNonNegative(b) && b.available >= 0 && num > 0 && den > 0
    ensures var before, after := CustodyToday(b), CustodyToday(SplitBalances(b, num, den));
            && after * den <= before * num < (after + 7) * den
            && (den == 1 ==> after == before * num)
  {
    hide ScaleKeep, ScaleTrunc, ScalePrice;
    ScaledPieces(b.available, num, den);
    ScaledPieces(b.blocked, num, den);
    ScaledPieces(b.leftovers, num, den);
    ScaledPieces(b.overdueSell, num, den);
    ScaledPieces(b.pendingSell.d0, num, den);
    ScaledPieces(b.pendingSell.d1, num, den);
    ScaledPieces(b.pendingSell.d2, num, den);
    SumOfSeven(b.available, b.blocked, b.leftovers, b.overdueSell, b.pendingSell.d0, b.pendingSell.d1, b.pendingSell.d2,
               num);
    SumOfSeven(ScaleKeep(b.available, num, den), ScaleKeep(b.blocked, num, den), ScaleKeep(b.leftovers, num, den),
               ScaleKeep(b.overdueSell, num, den), ScaleKeep(b.pendingSell.d0, num, den),
               ScaleKeep(b.pendingSell.d1, num, den), ScaleKeep(b.pendingSell.d2, num, den), den);
    var after := CustodyToday(SplitBalances(b, num, den));
    assert (after + 7) * den == after * den + 7 * den;
    if den == 1 {
      ExactByOne(b.available, num);
      ExactByOne(b.blocked, num);
      ExactByOne(b.leftovers, num);
      ExactByOne(b.overdueSell, num);
      ExactByOne(b.pendingSell.d0, num);
      ExactByOne(b.pendingSell.d1, num);
      ExactByOne(b.pendingSell.d2, num);
    }
  }

  lemma ExactByOne(q: int, num: nat)
    requires q >= 0 && num > 0
    ensures ScaleKeep(q, num, 1) == q * num
  {
    ScaledBound(q, num, 1);
  }

  // ---------------------------------------------------------------- runs that do corrupt

  const CAP := Capacity(4, 4, 4, 4, 4, 4, 60)
  const DAY := DayOpened(20240102, 20240103, 20240104, 20231229)
  const PRICE := ClosingPriceSet(Closing(7, [], [], 1, 1, 1, 0, 0, 20240102))

  /** A trade of 1.5 shares at no price, in the first slot. */
  function Traded(side: nat): Event {
    TradeExecuted(Execution(1, 1, 1, 7, 150_000_000, 0, [], 20240102, side, true))
  }

  function Settles(qty: int, side: nat): Event {
    TradeSettled(Settlement(1, 7, qty, 0, 0, 20240102, side, SettledInFull))
  }

  function Acted(kind: ActionKind, num: nat, den: nat): Event {
    CorporateActionApplied(Action(1, 1, 7, kind, num, den, 0, 0, 0, 0, 20240102, false))
  }

  /** The ledger on the first day, with one instrument described. */
  function FirstDayLedger(): (d: Ledger)
    ensures WellFormed(d)
  {
    NewLedger(CAP).(window := Window(20240102, 20240103, 20240104), businessDate := 20240102,
                    prevBusinessDate := 20231229, actions := TwoGen({}, {}, false, 20240102),
                    income := TwoGen({}, {}, false, 20240102),
                    instruments := [Instrument(7, [], [], 1, 1, 1, 0, 0, 20240102)],
                    instrumentIndex := map[7 := 0], appliedLsn := 2)
  }

  lemma DayAndPrice()
    ensures Apply(NewLedger(CAP), 1, DAY).st == Ok
    ensures Apply(Apply(NewLedger(CAP), 1, DAY).d, 2, PRICE) == Applied(FirstDayLedger(), Ok, [])
  {
    hide WellFormed, ApplyDayOpened, ApplyClosingPrice;
    JustDay(NewLedger(CAP));
    JustPrice(Apply(NewLedger(CAP), 1, DAY).d);
  }

  lemma JustDay(d: Ledger)
    requires d == NewLedger(CAP)
    ensures var r := ApplyDayOpened(d, 20240102, 20240103, 20240104, 20231229);
            && r.st == Ok
            && r.d == FirstDayLedger().(instruments := [], instrumentIndex := map[], appliedLsn := 0)
  {
    hide WellFormed, TableSize, DayIndex;
    var w := Window(20240102, 20240103, 20240104);
    assert Surviving([], w) == [] && RotatedCustody([], d.window, w) == [] && RotatedAccounts([], d.window, w) == [];
  }

  lemma JustPrice(d: Ledger)
    requires d == FirstDayLedger().(instruments := [], instrumentIndex := map[], appliedLsn := 1)
    ensures WellFormed(d)
    ensures var r := ApplyClosingPrice(d, PRICE.q);
            r == Applied(FirstDayLedger().(appliedLsn := 1), Ok, [])
  {
  }

  /** Room for more rows, no action applied yet, and this position. */
  ghost predicate Holding(d: Ledger, b: Balances)
    requires WellFormed(d)
  {
    && d.cap == CAP && |d.accounts| == |d.instruments| == |d.custody| == 1
    && HasPosition(d, 1, 7) && BalancesOf(d, 1, 7) == b && d.actions == TwoGen({}, {}, false, 20240102)
    && d.window == Window(20240102, 20240103, 20240104)
  }

  /** The same with an account, then with a position. */
  function WithAccount(): (d: Ledger)
    ensures WellFormed(d)
  {
    FirstDayLedger().(accounts := [Account(1, NO_FUNDS)], accountIndex := map[1 := 0])
  }

  function WithPosition(): (d: Ledger)
    ensures WellFormed(d)
  {
    WithAccount().(custody := [Position(0, 0, NO_BALANCES)], positionIndex := map[PositionKey(0, 0) := 0])
  }

  lemma RowsMade()
    ensures InternAccount(FirstDayLedger(), 1) == Row(WithAccount(), 0)
    ensures InternInstrument(WithAccount(), 7) == Row(WithAccount(), 0)
    ensures InternPosition(WithAccount(), 0, 0) == Row(WithPosition(), 0)
  {
    hide WellFormed;
  }

  lemma OneTrade(side: nat)
    ensures var r := Apply(FirstDayLedger(), 3, Traded(side));
            r.st == Ok && Holding(r.d, ExecuteBalances(NO_BALANCES, side == BUY, 0, 150_000_000, true))
  {
    hide BucketsNonNegative, WellFormed, InternAccount, InternInstrument, InternPosition, WithTrade, BalancesOf;
    hide HasPosition;
    var d, x := FirstDayLedger(), Traded(side).x;
    RowsMade();
    assert ExecutionError(x, NO_BALANCES) == Ok by {
      assert TotalFees(x.fees) == 0;
    }
    TradedPosition(WithPosition(), x);
    StampHolds(Dispatch(d, Traded(side)).d, 3, ExecuteBalances(NO_BALANCES, side == BUY, 0, 150_000_000, true));
  }

  lemma StampHolds(d: Ledger, lsn: nat, b: Balances)
    requires WellFormed(d) && Holding(d, b)
    ensures WellFormed(d.(appliedLsn := lsn)) && Holding(d.(appliedLsn := lsn), b)
  {
  }

  lemma TradedPosition(d: Ledger, x: Execution)
    requires WellFormed(d) && |d.accounts| == |d.instruments| == |d.custody| == 1 && d.instruments[0].factor > 0
    requires x.id !in d.tradeIndex && |d.trades| < d.cap.trades && x.qty > 0
    requires d.custody[0] == Position(0, 0, NO_BALANCES)
    requires d.accounts[0].document == 1 && d.instruments[0].id == 7 && x.account == 1 && x.instrument == 7
             && x.shortFlag
    ensures var b := ExecuteBalances(NO_BALANCES, x.side == BUY, 0, x.qty, true);
            var e := WithTrade(d, x, 0, 0, 0, 0);
            && HasPosition(e, 1, 7) && BalancesOf(e, 1, 7) == b && |e.custody| == 1 && e.custody[0].b == b
            && BucketsNonNegative(b) && |e.accounts| == |e.instruments| == 1
            && e.cap == d.cap && e.actions == d.actions && e.window == d.window
  {
    hide Amount, WellFormed, BalancesOf, HasPosition;
    WithTradeTables(d, x, 0, 0, 0, 0);
    WithTradeEffect(d, x, 0, 0, 0, 0, 1, 7);
    PositionAt(d, 0, 0);
    PositionFound(d, 0);
    SameTablesPosition(d, WithTrade(d, x, 0, 0, 0, 0), 1, 7);
    Indexed(d, 0, 0, 0);
  }

  lemma PositionFound(d: Ledger, pos: nat)
    requires WellFormed(d) && pos < |d.custody|
    ensures KeyOf(d.custody[pos]) in d.positionIndex
  {
  }

  lemma ActionMeets(d: Ledger, b: Balances, c: Action)
    requires WellFormed(d) && Holding(d, b) && c.account == 1 && c.instrument == 7
    requires ActionError(c) == Ok && ActionBuckets(b, c).Acts? && !ActionSafe(b, c)
    ensures Corrupts(d, CorporateActionApplied(c))
  {
    hide WellFormed, BalancesOf, HasPosition, ActionBuckets, ActionSafe, ActionError;
  }

  lemma SettlementMeets(d: Ledger, b: Balances, s: Settlement)
    requires Healthy(d) && Holding(d, b) && s.account == 1 && s.instrument == 7 && s.date == d.window.d0
    requires SettleBuckets(b, FundsOf(d, 1), s, InSlot(0)).Moves?
    ensures if SettlementSafe(b, s)
            then var r := Dispatch(d, TradeSettled(s));
                 r.st == Ok && Healthy(r.d) && Holding(r.d, SettleBuckets(b, FundsOf(d, 1), s, InSlot(0)).b)
            else Corrupts(d, TradeSettled(s))
  {
    hide WellFormed, BalancesOf, FundsOf, HasPosition, SettleBuckets, BucketsNonNegative, ApplyTradeSettled;
    hide NoBucketNegative;
    hide TradesPositive, SettlementSafe;
    CorruptExactly(d, TradeSettled(s));
    SettlementOutcome(d, s);
    ViewNonNegative(d, 1, 7);
    SettlementExactly(b, FundsOf(d, 1), s, InSlot(0));
    if SettlementSafe(b, s) {
      Effect(d, TradeSettled(s), 1, 7);
      SettlementKeepsRows(d, s);
    }
  }

  lemma SettlementKeepsRows(d: Ledger, s: Settlement)
    requires WellFormed(d) && HasPosition(d, s.account, s.instrument)
    ensures var e := ApplyTradeSettled(d, s).d;
            && HasPosition(e, s.account, s.instrument) && e.cap == d.cap && e.window == d.window
            && e.actions == d.actions
            && |e.accounts| == |d.accounts| && |e.instruments| == |d.instruments| && |e.custody| == |d.custody|
  {
    hide WellFormed, InternAccount, InternInstrument, SettleBuckets, SettledRows, BucketsNonNegative;
    if |d.accounts| < d.cap.accounts && |d.instruments| < d.cap.instruments {
      RowsInRange(d);
      var acct, i := d.accountIndex[s.account], d.instrumentIndex[s.instrument];
      var pos := d.positionIndex[PositionKey(acct, i)];
      var r := SettleBuckets(d.custody[pos].b, d.accounts[acct].m, s, SlotOf(d.window, s.date));
      if r.Moves? {
        SettledRowsKeep(d, s, acct, i, pos, r.b, r.m);
      }
    }
  }

  lemma SettledRowsKeep(d: Ledger, s: Settlement, acct: nat, i: nat, pos: nat, b: Balances, m: Funds)
    requires WellFormed(d) && acct < |d.accounts| && pos < |d.custody|
    ensures var e := SettledRows(d, s, acct, i, pos, b, m);
            && SameTables(d, e) && e.actions == d.actions
            && |e.accounts| == |d.accounts| && |e.instruments| == |d.instruments| && |e.custody| == |d.custody|
  {
    SettledRowsTables(d, s, acct, i, pos, b, m);
    hide WellFormed, Noted, SettledTrades, SetFunds, SetBalances, SameTables;
    LegKeeps(d, acct, pos, b, m);
    LegActions(d, acct, pos, b, m);
  }

  lemma LegActions(d: Ledger, acct: nat, pos: nat, b: Balances, m: Funds)
    requires WellFormed(d) && acct < |d.accounts| && pos < |d.custody|
    ensures |SetBalances(d, pos, b).accounts| == |d.accounts|
    ensures SetFunds(SetBalances(d, pos, b), acct, m).actions == d.actions
  {
    hide WellFormed;
  }

  /** The ledger after the first trade, healthy and holding just that. */
  lemma AfterTrade(side: nat, rest: seq<Event>)
    ensures WellFormed(Apply(FirstDayLedger(), 3, Traded(side)).d)
    ensures var d := Apply(FirstDayLedger(), 3, Traded(side)).d;
            && Healthy(d) && Holding(d, ExecuteBalances(NO_BALANCES, side == BUY, 0, 150_000_000, true))
            && Run(NewLedger(CAP), 1, [DAY, PRICE, Traded(side)] + rest) == Run(d, 4, rest)
  {
    hide WellFormed, Dispatch, Holding, NoBucketNegative, TradesPositive;
    DayAndPrice();
    OneTrade(side);
    var d0 := NewLedger(CAP);
    RunOne(d0, 1, DAY, [PRICE, Traded(side)] + rest);
    RunOne(Apply(d0, 1, DAY).d, 2, PRICE, [Traded(side)] + rest);
    RunOne(FirstDayLedger(), 3, Traded(side), rest);
    assert [DAY] + ([PRICE, Traded(side)] + rest) == [DAY, PRICE, Traded(side)] + rest;
    assert [PRICE] + ([Traded(side)] + rest) == [PRICE, Traded(side)] + rest;
    FirstDayHealthy();
    CorruptExactly(FirstDayLedger(), Traded(side));
    StampHealthy(Dispatch(FirstDayLedger(), Traded(side)).d, 3);
  }

  lemma FirstDayHealthy()
    ensures Healthy(FirstDayLedger())
  {
  }

  lemma RunOne(d: Ledger, lsn: nat, e: Event, es: seq<Event>)
    requires WellFormed(d)
    ensures IsFatal(Apply(d, lsn, e).st) ==> Run(d, lsn, [e] + es).st == Apply(d, lsn, e).st
    ensures !IsFatal(Apply(d, lsn, e).st) ==> Run(d, lsn, [e] + es) == Run(Apply(d, lsn, e).d, lsn + 1, es)
  {
    hide Apply, WellFormed, IsFatal;
    assert ([e] + es)[0] == e && ([e] + es)[1..] == es;
  }

  /** A corrupting event ends its run. */
  lemma CorruptEnds(d: Ledger, lsn: nat, e: Event)
    requires Healthy(d) && Corrupts(d, e)
    ensures Run(d, lsn, [e]).st == StateCorrupt
  {
    hide WellFormed, NoBucketNegative, TradesPositive, Dispatch, Corrupts;
    CorruptExactly(d, e);
    RunOne(d, lsn, e, []);
    assert [e] + [] == [e];
  }

  /** Half a share is cut off a short position, and leftovers have nothing to give. */
  lemma SplitOfShort(c: Action)
    requires c == Acted(Split, 1, 1).c
    ensures var b := ExecuteBalances(NO_BALANCES, false, 0, 150_000_000, true);
            ActionBuckets(b, c).Acts? && !ActionSafe(b, c)
  {
    Scales();
    hide ScaleTrunc, ScaleKeep, SplitBalances;
  }

  lemma Scales()
    ensures ScaleTrunc(-150_000_000, 1, 1) == Scaled(-100_000_000, -50_000_000)
    ensures ScaleTrunc(0, 1, 1) == Scaled(0, 0) && ScaleKeep(0, 1, 1) == 0
    ensures ScaleTrunc(-150_000_000, 1, 2) == Scaled(0, -75_000_000)
  {
  }

  /** A bonus that rounds an owed fraction up to nothing. */
  lemma Fractions(c: Action, b: Balances, leftover: int)
    requires c.kind == Bonus && c.num > 0 && c.den > 0 && CustodyToday(b) <= 0 && b.leftovers == 0
    requires ScaleTrunc(CustodyToday(b), c.num, c.den) == Scaled(0, leftover) && leftover < 0
    ensures ActionBuckets(b, c).Acts? && !ActionSafe(b, c)
  {
    hide ScaleTrunc, MulDiv, AveragePrice, SplitBalances;
  }

  lemma BonusOfShort(c: Action)
    requires c == Acted(Bonus, 1, 2).c
    ensures var b := NO_BALANCES.(available := -150_000_000, shortAllowed := true);
            ActionBuckets(b, c).Acts? && !ActionSafe(b, c)
  {
    hide ActionBuckets, ActionSafe, ScaleTrunc, ScaleKeep, MulDiv;
    Scales();
    Fractions(c, NO_BALANCES.(available := -150_000_000, shortAllowed := true), -75_000_000);
  }

  /** From an empty ledger: 1.5 shares sold short, and a split one for one cuts half a share off what is free. */
  lemma ShortSplitCorrupts()
    ensures Run(NewLedger(CAP), 1, [DAY, PRICE, Traded(2)] + [Acted(Split, 1, 1)]).st == StateCorrupt
  {
    hide WellFormed, Run, Apply, Holding, NoBucketNegative, TradesPositive, Corrupts, ActionBuckets, ActionSafe;
    AfterTrade(2, [Acted(Split, 1, 1)]);
    var d, b, c := Apply(FirstDayLedger(), 3, Traded(2)).d, ExecuteBalances(NO_BALANCES, false, 0, 150_000_000, true),
                   Acted(Split, 1, 1).c;
    SplitOfShort(c);
    ActionMeets(d, b, c);
    CorruptEnds(d, 4, Acted(Split, 1, 1));
  }

  /** The same sale delivered, and a bonus of one for two on 1.5 shares owed takes leftovers below zero. */
  lemma ShortBonusCorrupts()
    ensures Run(NewLedger(CAP), 1, [DAY, PRICE, Traded(2)] + [Settles(150_000_000, 2), Acted(Bonus, 1, 2)]).st
         == StateCorrupt
  {
    hide WellFormed, Run, Apply, Holding, NoBucketNegative, TradesPositive, Corrupts, ActionBuckets, ActionSafe;
    hide SettleBuckets, Dispatch;
    var rest := [Settles(150_000_000, 2), Acted(Bonus, 1, 2)];
    AfterTrade(2, rest);
    var d, b, c := Apply(FirstDayLedger(), 3, Traded(2)).d, ExecuteBalances(NO_BALANCES, false, 0, 150_000_000, true),
                   Acted(Bonus, 1, 2).c;
    HoldingWindow(d, b);
    SaleDelivers(FundsOf(d, 1), Settles(150_000_000, 2).s);
    SettlementMeets(d, b, Settles(150_000_000, 2).s);
    var e := Apply(d, 4, Settles(150_000_000, 2)).d;
    var short := NO_BALANCES.(available := -150_000_000, shortAllowed := true);
    ApplyStamps(d, 4, Settles(150_000_000, 2));
    StampBoth(Dispatch(d, Settles(150_000_000, 2)).d, 4, short);
    BonusOfShort(c);
    RunOne(d, 4, rest[0], [rest[1]]);
    assert [rest[0]] + [rest[1]] == rest;
    ActionMeets(e, short, c);
    CorruptEnds(e, 5, rest[1]);
  }

  lemma HoldingWindow(d: Ledger, b: Balances)
    requires WellFormed(d) && Holding(d, b)
    ensures d.window == Window(20240102, 20240103, 20240104)
  {
  }

  /** A short sale delivered: the shares are owed, and nothing else is left. */
  lemma SaleDelivers(m: Funds, s: Settlement)
    requires s.outcome == SettledInFull && s.side != BUY
    ensures var r := SettleBuckets(ExecuteBalances(NO_BALANCES, false, 0, s.qty, true), m, s, InSlot(0));
            r.Moves? && r.b == NO_BALANCES.(available := -s.qty, shortAllowed := true)
  {
    hide AveragePrice;
  }

  lemma ApplyStamps(d: Ledger, lsn: nat, e: Event)
    requires WellFormed(d)
    ensures Apply(d, lsn, e).st == Dispatch(d, e).st && Apply(d, lsn, e).d == Dispatch(d, e).d.(appliedLsn := lsn)
  {
    hide WellFormed, Dispatch;
  }

  lemma StampBoth(d: Ledger, lsn: nat, b: Balances)
    requires Healthy(d) && Holding(d, b)
    ensures Healthy(d.(appliedLsn := lsn)) && Holding(d.(appliedLsn := lsn), b)
  {
    hide WellFormed, Holding, NoBucketNegative, TradesPositive;
    StampHolds(d, lsn, b);
    StampHealthy(d, lsn);
  }

  /** A settlement of minus one raw unit passes every check, and takes what is free below zero. */
  lemma NegativeSettlementCorrupts()
    ensures Run(NewLedger(CAP), 1, [DAY, PRICE, Traded(BUY)] + [Settles(-1, BUY)]).st == StateCorrupt
  {
    hide WellFormed, Run, Apply, Holding, NoBucketNegative, TradesPositive, Corrupts, AveragePrice;
    AfterTrade(BUY, [Settles(-1, BUY)]);
    var d, b := Apply(FirstDayLedger(), 3, Traded(BUY)).d, ExecuteBalances(NO_BALANCES, true, 0, 150_000_000, true);
    HoldingWindow(d, b);
    SettlementMeets(d, b, Settles(-1, BUY).s);
    CorruptEnds(d, 4, Settles(-1, BUY));
  }
}
