/** What an event is answered, and why: told from what its owner sees, without the functions that decide it. */
module Answers {
  import opened Bytes
  import opened Status
  import opened Rounding
  import opened Calendar
  import opened Idempotency
  import opened Ledgers
  import opened Applying
  import opened Footprints
  import opened Figures
  import opened OwnerViews
  import opened Blotter
  import Rejections

  // ---------------------------------------------------------------- the reasons, in order

  /** The first of these that holds is the answer; if none does, the event is accepted. */
  ghost function ExecutionRefusal(d: Ledger, x: Execution): (r: Err)
    requires WellFormed(d)
    ensures IsFatal(r) ==> r == ArenaExhausted
  {
    if |d.trades| >= d.cap.trades then ArenaExhausted
    else if x.id in d.tradeIndex then AlreadyApplied
    else if |d.accounts| >= d.cap.accounts || |d.instruments| >= d.cap.instruments then ArenaExhausted
    else if FactorOf(d, x.instrument) == 0 then InstrumentNotDescribed
    else if !InWindow(d.window, x.date) then OutsideSettlementWindow
    else if |d.custody| >= d.cap.positions then ArenaExhausted
    else if !(0 < x.qty <= 10_000_000_000_000_000 && 0 <= x.price <= 100_000_000_000_000) then Overflow
    else if (exists f :: f in x.fees && !(-100_000_000_000_000_000 <= f <= 100_000_000_000_000_000))
            || !(-0x7FFF_FFFF_FFFF_FFFF <= TotalFees(x.fees) <= 0x7FFF_FFFF_FFFF_FFFF) then Overflow
    else if x.side != 1 && !x.shortFlag && BalancesOf(d, x.account, x.instrument).available < x.qty then
      ShortSaleNotAllowed
    else Ok
  }

  ghost function SettlementRefusal(d: Ledger, s: Settlement): (r: Err)
    requires WellFormed(d)
    ensures IsFatal(r) ==> r == ArenaExhausted
  {
    var b := BalancesOf(d, s.account, s.instrument);
    if |d.accounts| >= d.cap.accounts || |d.instruments| >= d.cap.instruments then ArenaExhausted
    else if !HasPosition(d, s.account, s.instrument) then NotFound
    else if s.outcome == UnknownOutcome then InvalidArgument
    else if s.outcome == BoughtIn then
      if (if s.side == 1 then b.overdueBuy else b.overdueSell) < s.qty then QtyMismatch else Ok
    else if !InWindow(d.window, s.date) then OutsideSettlementWindow
    else if Owed(d.window, s.date, if s.side == 1 then b.pendingBuy else b.pendingSell) < s.qty then QtyMismatch
    else Ok
  }

  /** An action's key is looked for before its figures: one refused for them has taken its key. */
  ghost function ActionRefusal(d: Ledger, c: Action): (r: Err)
    requires WellFormed(d)
    ensures IsFatal(r) ==> r == ArenaExhausted
  {
    hide WellFormed, BalancesOf, CutToShares, Insert, CustodyToday;
    var b := BalancesOf(d, c.account, c.instrument);
    var keys := Insert(d.actions, AppliedKey(c.id, RowFor(d, c.account)), TableSize(d.cap.actionsPerGen));
    if |d.accounts| >= d.cap.accounts || |d.instruments| >= d.cap.instruments || |d.custody| >= d.cap.positions then
      ArenaExhausted
    else if c.kind == UnknownAction || (c.kind == Subscription && c.qtyDelta < 0) then InvalidArgument
    else if c.kind != Subscription && c.kind != LeftoversAuction && (c.num == 0 || c.den == 0) then InvalidArgument
    else if keys.Full? then ArenaExhausted
    else if keys.Duplicate? then AlreadyApplied
    else if c.kind == Bonus && Rights(CustodyToday(b), c.num, c.den) < CustodyToday(b) then InvalidArgument
    else if c.kind == Subscription && c.num != 0 && c.den != 0
            && Rights(CustodyToday(b), c.num, c.den) < c.qtyDelta then QtyMismatch
    else Ok
  }

  /** The whole shares of a quantity in the proportion `num` for `den`. */
  ghost function Rights(x: int, num: nat, den: nat): (whole: int)
    requires den > 0
    ensures exists rest :: CutToShares(x, num, den, whole, rest)
  {
    IsCut(x, num, den);
    var whole :| exists rest :: CutToShares(x, num, den, whole, rest);
    whole
  }

  ghost function IncomeRefusal(d: Ledger, p: Dividend): (r: Err)
    requires WellFormed(d)
    ensures IsFatal(r) ==> r == ArenaExhausted
  {
    var keys := Insert(d.income, AppliedKey(p.id, RowFor(d, p.account)), TableSize(d.cap.actionsPerGen));
    if |d.accounts| >= d.cap.accounts then ArenaExhausted
    else if p.net != p.gross - p.withheld then AmountMismatch
    else if !(-10_000_000_000_000_000 <= p.basis <= 10_000_000_000_000_000)
            || !(-100_000_000_000_000_000 <= p.rate <= 100_000_000_000_000_000) then Overflow
    else if !(exists due :: IsRounded(HalfEven, p.basis * p.rate, ONE_SHARE, due) && -100 <= p.gross - due <= 100) then
      AmountMismatch
    else if keys.Full? then ArenaExhausted
    else if keys.Duplicate? then AlreadyApplied
    else Ok
  }

  /** The row an owner has, or will be given. */
  function RowFor(d: Ledger, doc: U64): nat {
    if doc in d.accountIndex then d.accountIndex[doc] else |d.accounts|
  }

  function NettingRefusal(d: Ledger, account: U64, net: int, date: Date): (r: Err)
    requires WellFormed(d)
    ensures IsFatal(r) ==> r == ArenaExhausted
  {
    if |d.accounts| >= d.cap.accounts then ArenaExhausted
    else if !InWindow(d.window, date) then OutsideSettlementWindow
    else if Owed(d.window, date, FundsOf(d, account).pending) != net then AmountMismatch
    else Ok
  }

  /** Rows are made on the way: the receiver's must find room behind the giver's. */
  function AllocationRefusal(d: Ledger, a: Allocation): (r: Err)
    requires WellFormed(d)
    ensures IsFatal(r) ==> r == ArenaExhausted
  {
    var t := TicketOf(d, a.trade);
    if t.NoTicket? then NotFound
    else if t.state != Executed then InvalidTransition
    else
      var owners := |d.accounts| + if a.from in d.accountIndex then 0 else 1;
      if |d.accounts| >= d.cap.accounts || owners >= d.cap.accounts then ArenaExhausted
      else if !InWindow(d.window, a.date) then OutsideSettlementWindow
      else if a.qty != t.qty then QtyMismatch
      else if a.from == a.to then Ok
      else
        var b, c := BalancesOf(d, a.from, t.paper), BalancesOf(d, a.to, t.paper);
        var rows := |d.custody| + if HasPosition(d, a.from, t.paper) then 0 else 1;
        if |d.custody| >= d.cap.positions || rows >= d.cap.positions then ArenaExhausted
        else if Owed(d.window, a.date, if a.side == 1 then b.pendingBuy else b.pendingSell) < a.qty then QtyMismatch
        else if a.side != 1 && !c.shortAllowed && c.available < a.qty then ShortSaleNotAllowed
        else Ok
  }

  ghost function Refusal(d: Ledger, e: Event): (r: Err)
    requires WellFormed(d)
    ensures IsFatal(r) ==> r == ArenaExhausted || r == StateCorrupt
  {
    match e
    case DayOpened(today, _, _, _) =>
      if today == 0 then InvalidArgument
      else if d.businessDate != 0 && today <= d.businessDate then InvalidTransition
      else Ok
    case TradeExecuted(x) => ExecutionRefusal(d, x)
    case TradeAllocated(a) => AllocationRefusal(d, a)
    case BatchNetted(account, net, date, _) => NettingRefusal(d, account, net, date)
    case TradeSettled(s) => SettlementRefusal(d, s)
    case CorporateActionApplied(c) => ActionRefusal(d, c)
    case DividendPaid(p) => IncomeRefusal(d, p)
    case ClosingPriceSet(q) =>
      if q.factor == 0 then InvalidArgument else if |d.instruments| >= d.cap.instruments then ArenaExhausted else Ok
    case CustodyReconciled(_, _) => Ok
    case EodMarked(custodySum, cashSum, _) =>
      if custodySum == 0 && cashSum == 0 then Ok
      else if custodySum == CustodySum(d.custody) % 0x1_0000_0000_0000_0000
              && cashSum == CashSum(d.accounts) % 0x1_0000_0000_0000_0000 then Ok
      else StateCorrupt
    case Unreadable(why) => if why == ShortPayload then ShortPayload else UnknownTemplate
  }

  /** Any event is answered with the first reason there is to refuse it; with none, it is accepted, unless it is found
      to leave a bucket below zero. */
  lemma Answered(d: Ledger, e: Event)
    requires WellFormed(d)
    ensures Refusal(d, e) != Ok ==> Dispatch(d, e).st == Refusal(d, e)
    ensures Refusal(d, e) == Ok ==> Dispatch(d, e).st == Ok || Dispatch(d, e).st == StateCorrupt
  {
    hide WellFormed, ApplyTradeExecuted, ApplyTradeAllocated, ApplyTradeSettled, ApplyCorporateAction;
    hide ApplyBatchNetted, ApplyDividendPaid, ExecutionRefusal, AllocationRefusal, SettlementRefusal, ActionRefusal;
    hide IncomeRefusal, NettingRefusal, CustodySum, CashSum, InternInstrument, Compacted, TurnDay, Reconciled;
    match e
    case TradeExecuted(x) => ExecutionAnswered(d, x);
    case TradeAllocated(a) => AllocationAnswered(d, a);
    case BatchNetted(account, net, date, count) => NettingAnswered(d, account, net, date, count);
    case TradeSettled(s) => SettlementAnswered(d, s);
    case CorporateActionApplied(c) => ActionAnswered(d, c);
    case DividendPaid(p) => IncomeAnswered(d, p);
    case _ =>
  }

  /** Two answers stop a partition, and no others: a bucket below zero or an anchor that does not match, and a table
      with no room. */
  lemma StopsExactly(d: Ledger, e: Event)
    requires WellFormed(d)
    ensures var st := Dispatch(d, e).st;
            IsFatal(st) <==> st == StateCorrupt || st == ArenaExhausted
  {
    hide WellFormed, Dispatch, Refusal;
    Answered(d, e);
  }

  /** What a check answers: the reason, or acceptance unless a bucket is found below zero. */
  ghost predicate Answers(st: Err, why: Err) {
    if why != Ok then st == why else st == Ok || st == StateCorrupt
  }

  lemma ExecutionChecked(x: Execution, b: Balances)
    ensures ExecutionError(x, b)
         == if !(0 < x.qty <= 10_000_000_000_000_000 && 0 <= x.price <= 100_000_000_000_000) then Overflow
            else if (exists f :: f in x.fees && !(-100_000_000_000_000_000 <= f <= 100_000_000_000_000_000))
                    || !(-0x7FFF_FFFF_FFFF_FFFF <= TotalFees(x.fees) <= 0x7FFF_FFFF_FFFF_FFFF) then Overflow
            else if x.side != 1 && !x.shortFlag && b.available < x.qty then ShortSaleNotAllowed
            else Ok
  {
    if f :| f in x.fees && !(-100_000_000_000_000_000 <= f <= 100_000_000_000_000_000) {
      var i :| 0 <= i < |x.fees| && x.fees[i] == f;
      assert !Within(x.fees[i], MAX_MONEY);
    } else {
      forall i | 0 <= i < |x.fees|
        ensures Within(x.fees[i], MAX_MONEY)
      {
        assert x.fees[i] in x.fees;
      }
    }
  }

  lemma ExecutionAnswered(d: Ledger, x: Execution)
    requires WellFormed(d)
    ensures Answers(ApplyTradeExecuted(d, x).st, ExecutionRefusal(d, x))
  {
    hide WellFormed, InternAccount, InternInstrument, InternPosition, BalancesOf, FactorOf, WithTrade, ExecutionError;
    hide BucketsNonNegative, Extends, TotalFees;
    ExecutionChecked(x, BalancesOf(d, x.account, x.instrument));
    if |d.trades| < d.cap.trades && x.id !in d.tradeIndex {
      var i1 := InternAccount(d, x.account);
      if i1.Row? {
        ExtendsSizes(d, i1.d);
        ExtendsTables(d, i1.d);
        ExtendsViews(d, i1.d, x.account, x.instrument);
        InternKeepsPapers(d, x.account);
        var i2 := InternInstrument(i1.d, x.instrument);
        if i2.Row? {
          ExtendsSizes(i1.d, i2.d);
          ExtendsTables(i1.d, i2.d);
          ExtendsViews(i1.d, i2.d, x.account, x.instrument);
          InternKeepsOwners(i1.d, x.instrument);
          InstrumentRow(i2.d, i2.row);
          if i2.d.instruments[i2.row].factor != 0 && SlotOf(i2.d.window, x.date).InSlot? {
            var i3 := InternPosition(i2.d, i1.row, i2.row);
            if i3.Row? {
              ExtendsSizes(i2.d, i3.d);
              ExtendsViews(i2.d, i3.d, x.account, x.instrument);
              AccountRows(i1.d, i2.d, i1.row, i1.row);
              AccountRows(i2.d, i3.d, i1.row, i1.row);
              InstrumentKept(i2.d, i3.d, i2.row);
              Indexed(i3.d, i1.row, i2.row, i3.row);
            }
          }
        }
      }
    }
  }

  lemma InternKeepsPapers(d: Ledger, doc: U64)
    requires WellFormed(d) && InternAccount(d, doc).Row?
    ensures var r := InternAccount(d, doc);
            && r.d.instruments == d.instruments && r.d.custody == d.custody && r.d.trades == d.trades
            && r.row == RowFor(d, doc) && r.d.actions == d.actions && r.d.income == d.income && r.d.cap == d.cap
            && |r.d.accounts| == |d.accounts| + if doc in d.accountIndex then 0 else 1
  {
  }

  lemma InternKeepsOwners(d: Ledger, id: U32)
    requires WellFormed(d) && InternInstrument(d, id).Row?
    ensures var r := InternInstrument(d, id).d;
            && r.accounts == d.accounts && r.custody == d.custody && r.trades == d.trades
            && r.actions == d.actions && r.income == d.income && r.cap == d.cap
  {
  }

  lemma SettlementChecked(w: Window, s: Settlement, b: Balances, m: Funds)
    ensures var r := SettleBuckets(b, m, s, SlotOf(w, s.date));
            (if r.Moves? then Ok else r.err)
            == if s.outcome == UnknownOutcome then InvalidArgument
               else if s.outcome == BoughtIn then
                 if (if s.side == 1 then b.overdueBuy else b.overdueSell) < s.qty then QtyMismatch else Ok
               else if !InWindow(w, s.date) then OutsideSettlementWindow
               else if Owed(w, s.date, if s.side == 1 then b.pendingBuy else b.pendingSell) < s.qty then QtyMismatch
               else Ok
  {
    hide AveragePrice;
  }

  lemma SettlementAnswered(d: Ledger, s: Settlement)
    requires WellFormed(d)
    ensures Answers(ApplyTradeSettled(d, s).st, SettlementRefusal(d, s))
  {
    hide WellFormed, InternAccount, InternInstrument, BalancesOf, FundsOf, SettledRows, SettleBuckets, HasPosition;
    hide BucketsNonNegative, Extends;
    SettlementChecked(d.window, s, BalancesOf(d, s.account, s.instrument), FundsOf(d, s.account));
    var i1 := InternAccount(d, s.account);
    if i1.Row? {
      ExtendsViews(d, i1.d, s.account, s.instrument);
      AccountMakesNone(d, s.account, s.account, s.instrument);
      InternKeepsPapers(d, s.account);
      ExtendsTables(d, i1.d);
      var i2 := InternInstrument(i1.d, s.instrument);
      if i2.Row? {
        ExtendsViews(i1.d, i2.d, s.account, s.instrument);
        InstrumentMakesNone(i1.d, s.instrument, s.account, s.instrument);
        ExtendsTables(i1.d, i2.d);
        ExtendsSizes(i1.d, i2.d);
        AccountRows(i1.d, i2.d, i1.row, i1.row);
        RowsInRange(i2.d);
        PositionAt(i2.d, i1.row, i2.row);
        var key := PositionKey(i1.row, i2.row);
        if key in i2.d.positionIndex {
          KeyNames(i2.d, key);
          Indexed(i2.d, i1.row, i2.row, i2.d.positionIndex[key]);
        }
      }
    }
  }

  lemma CutUnique(x: int, num: nat, den: nat, whole: int, rest: int)
    requires den > 0 && CutToShares(x, num, den, whole, rest)
    ensures whole == ScaleTrunc(x, num, den).whole
  {
    hide RoundDiv, IsRounded;
    RoundedUnique(TowardZero, x * num, den, whole + rest);
    WholeUnique(whole + rest, whole);
  }

  lemma WholeUnique(x: int, whole: int)
    requires WholePart(x, whole)
    ensures whole == TruncDiv(x, ONE_SHARE) * ONE_SHARE
  {
    IsWhole(x);
  }

  lemma RightsAre(x: int, num: nat, den: nat)
    requires den > 0
    ensures Rights(x, num, den) == ScaleTrunc(x, num, den).whole
  {
    hide ScaleTrunc, CutToShares;
    var rest :| CutToShares(x, num, den, Rights(x, num, den), rest);
    CutUnique(x, num, den, Rights(x, num, den), rest);
  }

  lemma ActionChecked(b: Balances, c: Action)
    requires ActionError(c) == Ok
    ensures var r := ActionBuckets(b, c);
            (if r.Acts? then Ok else r.err)
            == if c.kind == Bonus && Rights(CustodyToday(b), c.num, c.den) < CustodyToday(b) then InvalidArgument
               else if c.kind == Subscription && c.num != 0 && c.den != 0
                       && Rights(CustodyToday(b), c.num, c.den) < c.qtyDelta then QtyMismatch
               else Ok
  {
    hide AveragePrice, ScaleTrunc, SplitBalances, MulDiv, Rights;
    if c.kind == Bonus || (c.kind == Subscription && c.num != 0 && c.den != 0) {
      RightsAre(CustodyToday(b), c.num, c.den);
    }
  }

  lemma ActionAnswered(d: Ledger, c: Action)
    requires WellFormed(d)
    ensures Answers(ApplyCorporateAction(d, c).st, ActionRefusal(d, c))
  {
    hide WellFormed, InternAccount, InternInstrument, InternPosition, BalancesOf, ActOn, Extends, Insert, Rights;
    hide CustodyToday;
    var i1 := InternAccount(d, c.account);
    if i1.Row? {
      ExtendsViews(d, i1.d, c.account, c.instrument);
      InternKeepsPapers(d, c.account);
      var i2 := InternInstrument(i1.d, c.instrument);
      if i2.Row? {
        ExtendsViews(i1.d, i2.d, c.account, c.instrument);
        InternKeepsOwners(i1.d, c.instrument);
        ExtendsSizes(i1.d, i2.d);
        AccountRows(i1.d, i2.d, i1.row, i1.row);
        var i3 := InternPosition(i2.d, i1.row, i2.row);
        if i3.Row? {
          ExtendsViews(i2.d, i3.d, c.account, c.instrument);
          ExtendsSizes(i2.d, i3.d);
          ExtendsTables(i2.d, i3.d);
          PositionKeepsKeys(i2.d, i1.row, i2.row);
          AccountRows(i2.d, i3.d, i1.row, i1.row);
          InstrumentKept(i2.d, i3.d, i2.row);
          Indexed(i3.d, i1.row, i2.row, i3.row);
          ActAnswered(i3.d, c, i1.row, i3.row);
        }
      }
    }
  }

  lemma PositionKeepsKeys(d: Ledger, acct: nat, i: nat)
    requires WellFormed(d) && acct < |d.accounts| && i < |d.instruments| && InternPosition(d, acct, i).Row?
    ensures InternPosition(d, acct, i).d.actions == d.actions
  {
  }

  lemma ActAnswered(d: Ledger, c: Action, acct: nat, pos: nat)
    requires WellFormed(d) && acct < |d.accounts| && pos < |d.custody|
    ensures var b := d.custody[pos].b;
            var keys := Insert(d.actions, AppliedKey(c.id, acct), TableSize(d.cap.actionsPerGen));
            Answers(ActOn(d, c, acct, pos).st,
                    if c.kind == UnknownAction || (c.kind == Subscription && c.qtyDelta < 0) then InvalidArgument
                    else if c.kind != Subscription && c.kind != LeftoversAuction && (c.num == 0 || c.den == 0) then
                      InvalidArgument
                    else if keys.Full? then ArenaExhausted
                    else if keys.Duplicate? then AlreadyApplied
                    else if c.kind == Bonus && Rights(CustodyToday(b), c.num, c.den) < CustodyToday(b) then
                      InvalidArgument
                    else if c.kind == Subscription && c.num != 0 && c.den != 0
                            && Rights(CustodyToday(b), c.num, c.den) < c.qtyDelta then QtyMismatch
                    else Ok)
  {
    hide WellFormed, ActionBuckets, ActedRows, BucketsNonNegative, Insert, Rights, CustodyToday;
    if ActionError(c) == Ok {
      ActionChecked(d.custody[pos].b, c);
    }
  }

  lemma IncomeAnswered(d: Ledger, p: Dividend)
    requires WellFormed(d)
    ensures Answers(ApplyDividendPaid(d, p).st, IncomeRefusal(d, p))
  {
    hide WellFormed, InternAccount, Insert, RoundDiv, IsRounded, PushException, DividendFunds, Extends;
    var i1 := InternAccount(d, p.account);
    if i1.Row? {
      InternKeepsPapers(d, p.account);
      var due := MulDiv(HalfEven, p.basis, p.rate, ONE_SHARE);
      Rounded(HalfEven, p.basis * p.rate, ONE_SHARE);
      assert IsRounded(HalfEven, p.basis * p.rate, ONE_SHARE, due);
      forall x | IsRounded(HalfEven, p.basis * p.rate, ONE_SHARE, x)
        ensures x == due
      {
        RoundedUnique(HalfEven, p.basis * p.rate, ONE_SHARE, x);
      }
    }
  }

  lemma NettingAnswered(d: Ledger, account: U64, net: int, date: Date, count: nat)
    requires WellFormed(d)
    ensures Answers(ApplyBatchNetted(d, account, net, date, count).st, NettingRefusal(d, account, net, date))
  {
    hide WellFormed, InternAccount, CountNetted, Extends, FundsOf, PushException;
    var i1 := InternAccount(d, account);
    if i1.Row? {
      ExtendsTables(d, i1.d);
      ExtendsViews(d, i1.d, account, 0);
      AccountView(i1.d, i1.row);
    }
  }

  lemma AllocationAnswered(d: Ledger, a: Allocation)
    requires WellFormed(d)
    ensures Answers(ApplyTradeAllocated(d, a).st, AllocationRefusal(d, a))
  {
    hide WellFormed, InternAccount, AllocateRows, Extends, BalancesOf, HasPosition, TicketOf;
    RowsInRange(d);
    if a.trade in d.tradeIndex {
      FoundTicket(d, a.trade);
      var t := d.tradeIndex[a.trade];
      OnlyExecuted(d.trades[t].state);
      if d.trades[t].state == Executed {
        var i1 := InternAccount(d, a.from);
        if i1.Row? {
          InternKeepsPapers(d, a.from);
          ExtendsTables(d, i1.d);
          ExtendsSizes(d, i1.d);
          var i2 := InternAccount(i1.d, a.to);
          if i2.Row? {
            InternKeepsPapers(i1.d, a.to);
            ExtendsTables(i1.d, i2.d);
            ExtendsSizes(i1.d, i2.d);
            ExtendsAgain(d, i1.d, i2.d);
            AccountRows(i1.d, i2.d, i1.row, i2.row);
            AccountRows(i1.d, i2.d, i1.row, i1.row);
            var paper := d.instruments[d.trades[t].instrument].id;
            ExtendsViews(d, i2.d, a.from, paper);
            ExtendsViews(d, i2.d, a.to, paper);
            AccountMakesNone(d, a.from, a.from, paper);
            AccountMakesNone(i1.d, a.to, a.from, paper);
            RowsAnswered(i2.d, a, t, i1.row, i2.row);
          }
        }
      }
    } else {
      Absentee(d, a.trade);
    }
  }

  lemma OnlyExecuted(s: TradeState)
    ensures NextState(s, Allocate) != Absent <==> s == Executed
  {
  }

  lemma FoundTicket(d: Ledger, id: U64)
    requires WellFormed(d) && id in d.tradeIndex
    ensures var t := d.tradeIndex[id];
            && t < |d.trades| && d.trades[t].instrument < |d.instruments| && TicketOf(d, id).Ticket?
            && TicketOf(d, id).state == d.trades[t].state && TicketOf(d, id).qty == d.trades[t].qty
            && TicketOf(d, id).paper == d.instruments[d.trades[t].instrument].id
  {
    RowsInRange(d);
    hide WellFormed;
  }

  lemma RowsAnswered(d: Ledger, a: Allocation, t: nat, from: nat, to: nat)
    requires WellFormed(d) && t < |d.trades| && from < |d.accounts| && to < |d.accounts|
    requires d.accounts[from].document == a.from && d.accounts[to].document == a.to && (from == to <==> a.from == a.to)
    ensures d.trades[t].instrument < |d.instruments|
    ensures var paper := d.instruments[d.trades[t].instrument].id;
            var b, c := BalancesOf(d, a.from, paper), BalancesOf(d, a.to, paper);
            var rows := |d.custody| + if HasPosition(d, a.from, paper) then 0 else 1;
            Answers(AllocateRows(d, a, t, from, to).st,
                    if !InWindow(d.window, a.date) then OutsideSettlementWindow
                    else if a.qty != d.trades[t].qty then QtyMismatch
                    else if a.from == a.to then Ok
                    else if |d.custody| >= d.cap.positions || rows >= d.cap.positions then ArenaExhausted
                    else if Owed(d.window, a.date, if a.side == 1 then b.pendingBuy else b.pendingSell) < a.qty then
                      QtyMismatch
                    else if a.side != 1 && !c.shortAllowed && c.available < a.qty then ShortSaleNotAllowed
                    else Ok)
  {
    hide WellFormed, AllocateAcross, Fixed, BalancesOf, HasPosition;
    Rejections.TradeRow(d, t);
    var slot := SlotOf(d.window, a.date);
    if slot.InSlot? && from != to {
      AcrossAnswered(d, a, t, from, to, slot.k);
    }
  }

  lemma AcrossAnswered(d: Ledger, a: Allocation, t: nat, from: nat, to: nat, k: nat)
    requires WellFormed(d) && t < |d.trades| && from < |d.accounts| && to < |d.accounts| && from != to
    requires SlotOf(d.window, a.date) == InSlot(k) && k < 3 && d.trades[t].instrument < |d.instruments|
    ensures var paper := d.instruments[d.trades[t].instrument].id;
            var b, c := BalancesOf(d, d.accounts[from].document, paper), BalancesOf(d, d.accounts[to].document, paper);
            var rows := |d.custody| + if HasPosition(d, d.accounts[from].document, paper) then 0 else 1;
            Answers(AllocateAcross(d, a, t, from, to, k).st,
                    if |d.custody| >= d.cap.positions || rows >= d.cap.positions then ArenaExhausted
                    else if Owed(d.window, a.date, if a.side == 1 then b.pendingBuy else b.pendingSell) < a.qty then
                      QtyMismatch
                    else if a.side != 1 && !c.shortAllowed && c.available < a.qty then ShortSaleNotAllowed
                    else Ok)
  {
    hide WellFormed, InternPosition, Moved, Fixed, BucketsNonNegative, Extends, HasPosition, BalancesOf;
    var i := d.trades[t].instrument;
    var paper := d.instruments[i].id;
    PositionAt(d, from, i);
    var i1 := InternPosition(d, from, i);
    if i1.Row? {
      PositionCounts(d, from, i);
      ExtendsSizes(d, i1.d);
      ExtendsTables(d, i1.d);
      ExtendsViews(d, i1.d, d.accounts[from].document, paper);
      ExtendsViews(d, i1.d, d.accounts[to].document, paper);
      var i2 := InternPosition(i1.d, to, i);
      if i2.Row? {
        ExtendsSizes(i1.d, i2.d);
        ExtendsViews(i1.d, i2.d, d.accounts[from].document, paper);
        ExtendsViews(i1.d, i2.d, d.accounts[to].document, paper);
        ExtendsAgain(d, i1.d, i2.d);
        AccountRows(d, i2.d, from, from);
        AccountRows(d, i2.d, to, to);
        InstrumentKept(d, i2.d, i);
        StaysAt(i1.d, i2.d, i1.row);
        Indexed(i2.d, from, i, i1.row);
        Indexed(i2.d, to, i, i2.row);
      }
    }
  }

  lemma PositionCounts(d: Ledger, acct: nat, i: nat)
    requires WellFormed(d) && acct < |d.accounts| && i < |d.instruments| && InternPosition(d, acct, i).Row?
    ensures |InternPosition(d, acct, i).d.custody|
         == |d.custody| + if PositionKey(acct, i) in d.positionIndex then 0 else 1
  {
  }

  lemma StaysAt(d: Ledger, e: Ledger, pos: nat)
    requires Extends(d, e) && pos < |d.custody|
    ensures pos < |e.custody| && e.custody[pos] == d.custody[pos]
  {
  }
}
