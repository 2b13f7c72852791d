/** The ten events and what each does to the ledger. */
module Applying {
  import opened Bytes
  import opened Status
  import opened Rounding
  import opened Calendar
  import opened Idempotency
  import opened Ledgers

  const MAX_QTY := 10_000_000_000_000_000
  const MAX_PRICE := 100_000_000_000_000
  const MAX_MONEY := 100_000_000_000_000_000
  const MAX_INT64 := 0x7FFF_FFFF_FFFF_FFFF

  datatype Outcome = SettledInFull | DeliveryFailure | BoughtIn | UnknownOutcome

  datatype ActionKind = Bonus | Split | ReverseSplit | Subscription | LeftoversAuction | UnknownAction

  datatype Execution = Execution(id: U64, note: U64, account: U64, instrument: U32, qty: int, price: int,
                                 fees: seq<int>, date: Date, side: nat, shortFlag: bool)

  datatype Allocation = Allocation(trade: U64, from: U64, to: U64, qty: int, cash: int, date: Date, side: nat)

  datatype Settlement = Settlement(account: U64, instrument: U32, qty: int, cash: int, cost: int, date: Date,
                                   side: nat, outcome: Outcome)

  datatype Action = Action(id: U64, account: U64, instrument: U32, kind: ActionKind, num: nat, den: nat,
                           qtyDelta: int, cashDelta: int, unitCost: int, withheld: int, exDate: Date, verify: bool)

  datatype Dividend = Dividend(id: U64, account: U64, instrument: U32, basis: int, rate: int, gross: int,
                               withheld: int, net: int, exDate: Date, accrued: bool)

  datatype Closing = Closing(instrument: U32, symbol: seq<Byte>, isin: seq<Byte>, kind: nat, factor: nat, lot: nat,
                             closing: int, previous: int, date: Date)

  datatype Divergence = Divergence(account: U64, qtyDelta: int, instrument: U32)

  /** A decoded payload; `Unreadable` is one of no known kind, or too short for its kind. */
  datatype Event =
    | DayOpened(today: Date, d1: Date, d2: Date, previous: Date)
    | TradeExecuted(x: Execution)
    | TradeAllocated(a: Allocation)
    | BatchNetted(account: U64, net: int, date: Date, count: nat)
    | TradeSettled(s: Settlement)
    | CorporateActionApplied(c: Action)
    | DividendPaid(p: Dividend)
    | ClosingPriceSet(q: Closing)
    | CustodyReconciled(date: Date, divergences: seq<Divergence>)
    | EodMarked(custodySum: U64, cashSum: U64, diverged: bool)
    | Unreadable(why: Err)

  datatype PositionUpdate = PositionUpdate(document: U64, available: int, avgPrice: int, instrument: U32)

  /** The ledger after an event, the status answered, and the updates staged. */
  datatype Applied = Applied(d: Ledger, st: Err, outs: seq<PositionUpdate>)

  function Rejected(d: Ledger, st: Err): Applied {
    Applied(d, st, [])
  }

  /** At most one update is staged, and none by a fatal event. */
  predicate Quiet(r: Applied) {
    |r.outs| <= 1 && (IsFatal(r.st) ==> r.outs == [])
  }

  predicate Within(x: int, max: int) {
    -max <= x <= max
  }

  function TotalFees(xs: seq<int>): int {
    if xs == [] then 0 else xs[0] + TotalFees(xs[1..])
  }

  // ---------------------------------------------------------------- what happens to buckets

  /** What the slots of the old window leave in the slots of the new one, and what falls out of it. */
  datatype Turned = Turned(kept: Three, out: int)

  function TurnOne(acc: Turned, x: int, s: Slot): Turned
    requires s.InSlot? ==> s.k < 3
  {
    if s.NoSlot? then Turned(acc.kept, acc.out + x) else Turned(Plus(acc.kept, s.k, x), acc.out)
  }

  function Turn(t: Three, from: Window, to: Window): Turned {
    var a := TurnOne(Turned(NOTHING, 0), t.d0, SlotOf(to, from.d0));
    var b := TurnOne(a, t.d1, SlotOf(to, from.d1));
    TurnOne(b, t.d2, SlotOf(to, from.d2))
  }

  function RotateBalances(b: Balances, from: Window, to: Window): Balances {
    var buys, sells := Turn(b.pendingBuy, from, to), Turn(b.pendingSell, from, to);
    b.(pendingBuy := buys.kept, pendingSell := sells.kept,
       overdueBuy := b.overdueBuy + buys.out, overdueSell := b.overdueSell + sells.out)
  }

  function RotateFunds(m: Funds, from: Window, to: Window): Funds {
    var t := Turn(m.pending, from, to);
    m.(pending := t.kept, overdue := m.overdue + t.out)
  }

  function ExecuteBalances(b: Balances, buy: bool, k: nat, q: int, shortFlag: bool): Balances
    requires k < 3
  {
    if buy then b.(pendingBuy := Plus(b.pendingBuy, k, q))
    else b.(available := b.available - q, pendingSell := Plus(b.pendingSell, k, q),
            shortAllowed := b.shortAllowed || shortFlag)
  }

  function AllocateFrom(b: Balances, buy: bool, k: nat, q: int): Balances
    requires k < 3
  {
    if buy then b.(pendingBuy := Plus(b.pendingBuy, k, -q))
    else b.(available := b.available + q, pendingSell := Plus(b.pendingSell, k, -q))
  }

  function AllocateTo(b: Balances, buy: bool, k: nat, q: int): Balances
    requires k < 3
  {
    if buy then b.(pendingBuy := Plus(b.pendingBuy, k, q))
    else b.(available := b.available - q, pendingSell := Plus(b.pendingSell, k, q))
  }

  datatype Settling = Moves(b: Balances, m: Funds) | Refuses(err: Err)

  function SettleBuckets(b: Balances, m: Funds, e: Settlement, slot: Slot): (r: Settling)
    requires slot.InSlot? ==> slot.k < 3
    ensures r.Refuses? ==> r.err != Ok && !IsFatal(r.err)
  {
    var buy := e.side == BUY;
    match e.outcome
    case UnknownOutcome => Refuses(InvalidArgument)
    case SettledInFull =>
      if slot.NoSlot? then Refuses(OutsideSettlementWindow)
      else if buy then
        if At(b.pendingBuy, slot.k) < e.qty then Refuses(QtyMismatch)
        else
          Moves(b.(avgPrice := AveragePrice(CustodyToday(b), b.avgPrice, e.qty, e.cost),
                   pendingBuy := Plus(b.pendingBuy, slot.k, -e.qty), available := b.available + e.qty),
                m.(cash := m.cash + e.cash, pending := Plus(m.pending, slot.k, -e.cash)))
      else if At(b.pendingSell, slot.k) < e.qty then Refuses(QtyMismatch)
      else
        Moves(b.(pendingSell := Plus(b.pendingSell, slot.k, -e.qty)),
              m.(cash := m.cash + e.cash, pending := Plus(m.pending, slot.k, -e.cash)))
    case DeliveryFailure =>
      if slot.NoSlot? then Refuses(OutsideSettlementWindow)
      else
        var m' := m.(pending := Plus(m.pending, slot.k, -e.cash), overdue := m.overdue + e.cash);
        if buy then
          if At(b.pendingBuy, slot.k) < e.qty then Refuses(QtyMismatch)
          else Moves(b.(pendingBuy := Plus(b.pendingBuy, slot.k, -e.qty), overdueBuy := b.overdueBuy + e.qty), m')
        else if At(b.pendingSell, slot.k) < e.qty then Refuses(QtyMismatch)
        else Moves(b.(pendingSell := Plus(b.pendingSell, slot.k, -e.qty), overdueSell := b.overdueSell + e.qty), m')
    case BoughtIn =>
      var m' := m.(overdue := m.overdue - e.cash, cash := m.cash + e.cash);
      if buy then
        if b.overdueBuy < e.qty then Refuses(QtyMismatch)
        else Moves(b.(overdueBuy := b.overdueBuy - e.qty, available := b.available + e.qty), m')
      else if b.overdueSell < e.qty then Refuses(QtyMismatch)
      else Moves(b.(overdueSell := b.overdueSell - e.qty), m')
  }

  function TriggerOf(o: Outcome): Trigger {
    match o
    case SettledInFull => Settle
    case DeliveryFailure => Fail
    case _ => BuyIn
  }

  function ScaleThree(t: Three, num: nat, den: nat): Three
    requires den > 0
  {
    Three(ScaleKeep(t.d0, num, den), ScaleKeep(t.d1, num, den), ScaleKeep(t.d2, num, den))
  }

  /** Owned quantities keep whole shares and leave their fraction in `leftovers`; those in flight keep it. */
  function SplitBalances(b: Balances, num: nat, den: nat): Balances
    requires num > 0 && den > 0
  {
    var a, k := ScaleTrunc(b.available, num, den), ScaleTrunc(b.blocked, num, den);
    var l := ScaleTrunc(b.leftovers, num, den);
    b.(available := a.whole, blocked := k.whole,
       overdueBuy := ScaleKeep(b.overdueBuy, num, den), overdueSell := ScaleKeep(b.overdueSell, num, den),
       pendingBuy := ScaleThree(b.pendingBuy, num, den), pendingSell := ScaleThree(b.pendingSell, num, den),
       leftovers := l.whole + l.leftover + (a.leftover + k.leftover),
       avgPrice := ScalePrice(b.avgPrice, num, den))
  }

  /** Checked before the idempotency key is consumed. */
  function ActionError(e: Action): (r: Err)
    ensures !IsFatal(r)
  {
    match e.kind
    case Bonus => if e.num == 0 || e.den == 0 then InvalidArgument else Ok
    case Split => if e.num == 0 || e.den == 0 then InvalidArgument else Ok
    case ReverseSplit => if e.num == 0 || e.den == 0 then InvalidArgument else Ok
    case Subscription => if e.qtyDelta < 0 then InvalidArgument else Ok
    case LeftoversAuction => Ok
    case UnknownAction => InvalidArgument
  }

  /** The position after the action, the quantity it says moved, and the cash that moved. */
  datatype Acting = Acts(b: Balances, moved: int, cash: int) | Denies(err: Err)

  function ActionBuckets(b: Balances, e: Action): (r: Acting)
    requires ActionError(e) == Ok
    ensures r.Denies? ==> r.err != Ok && !IsFatal(r.err)
  {
    var base := CustodyToday(b);
    match e.kind
    case Split => var s := SplitBalances(b, e.num, e.den); Acts(s, CustodyToday(s) - base, 0)
    case ReverseSplit => var s := SplitBalances(b, e.num, e.den); Acts(s, CustodyToday(s) - base, 0)
    case Bonus =>
      var s := ScaleTrunc(base, e.num, e.den);
      var gained := s.whole - base;
      if gained < 0 then Denies(InvalidArgument)
      else
        var cost := MulDiv(HalfEven, gained, e.unitCost, ONE_SHARE);
        Acts(b.(avgPrice := AveragePrice(base, b.avgPrice, gained, cost), available := b.available + gained,
                leftovers := b.leftovers + s.leftover), gained + s.leftover, 0)
    case Subscription =>
      if e.num != 0 && e.den != 0 && e.qtyDelta > ScaleTrunc(base, e.num, e.den).whole then Denies(QtyMismatch)
      else
        Acts(b.(avgPrice := AveragePrice(base, b.avgPrice, e.qtyDelta, e.cashDelta),
                available := b.available + e.qtyDelta), e.qtyDelta, -e.cashDelta)
    case LeftoversAuction => Acts(b.(leftovers := 0), -b.leftovers, e.cashDelta)
  }

  // ---------------------------------------------------------------- what happens to trades

  function SurvivesDay(t: Trade, w: Window): bool {
    !(t.state == Settled && SlotOf(w, t.date).NoSlot?)
  }

  function Surviving(ts: seq<Trade>, w: Window): seq<Trade> {
    if ts == [] then []
    else
      var rest := Surviving(ts[..|ts| - 1], w);
      if SurvivesDay(ts[|ts| - 1], w) then rest + [ts[|ts| - 1]] else rest
  }

  function Reindexed(ts: seq<Trade>): map<U64, nat> {
    if ts == [] then map[] else Reindexed(ts[..|ts| - 1])[ts[|ts| - 1].id := |ts| - 1]
  }

  function Advanced(t: Trade, trigger: Trigger): Trade {
    var next := NextState(t.state, trigger);
    if next == Absent then t else t.(state := next)
  }

  /** Would netting this date advance the trade? */
  predicate Nettable(t: Trade, date: Date) {
    t.date == date && NextState(t.state, Net) != Absent
  }

  function NettedTrades(ts: seq<Trade>, account: nat, date: Date): (r: seq<Trade>)
    ensures |r| == |ts|
    ensures forall i :: 0 <= i < |ts| ==>
              r[i] == if ts[i].account == account && ts[i].date == date then Advanced(ts[i], Net) else ts[i]
  {
    seq(|ts|, i requires 0 <= i < |ts| =>
      if ts[i].account == account && ts[i].date == date then Advanced(ts[i], Net) else ts[i])
  }

  function CountNetted(ts: seq<Trade>, account: nat, date: Date): nat {
    if ts == [] then 0
    else
      var t := ts[|ts| - 1];
      CountNetted(ts[..|ts| - 1], account, date)
      + if t.account == account && Nettable(t, date) then 1 else 0
  }

  predicate Covered(t: Trade, account: nat, instrument: nat, date: Date, side: nat) {
    t.account == account && t.instrument == instrument && t.date == date && t.side == side
  }

  function SettledTrades(ts: seq<Trade>, account: nat, instrument: nat, date: Date, side: nat, trigger: Trigger)
    : (r: seq<Trade>)
    ensures |r| == |ts|
    ensures forall i :: 0 <= i < |ts| ==>
              r[i] == if Covered(ts[i], account, instrument, date, side) then Advanced(ts[i], trigger) else ts[i]
  {
    seq(|ts|, i requires 0 <= i < |ts| =>
      if Covered(ts[i], account, instrument, date, side) then Advanced(ts[i], trigger) else ts[i])
  }

  // ---------------------------------------------------------------- the day turns

  function RotatedCustody(rows: seq<Position>, from: Window, to: Window): (r: seq<Position>)
    ensures |r| == |rows|
    ensures forall i :: 0 <= i < |rows| ==> r[i] == rows[i].(b := RotateBalances(rows[i].b, from, to))
  {
    seq(|rows|, i requires 0 <= i < |rows| => rows[i].(b := RotateBalances(rows[i].b, from, to)))
  }

  function RotatedAccounts(rows: seq<Account>, from: Window, to: Window): (r: seq<Account>)
    ensures |r| == |rows|
    ensures forall i :: 0 <= i < |rows| ==> r[i] == rows[i].(m := RotateFunds(rows[i].m, from, to))
  {
    seq(|rows|, i requires 0 <= i < |rows| => rows[i].(m := RotateFunds(rows[i].m, from, to)))
  }

  ghost predicate DistinctIds(ts: seq<Trade>) {
    forall i, j :: 0 <= i < j < |ts| ==> ts[i].id != ts[j].id
  }

  lemma {:induction false} SurvivingFrom(ts: seq<Trade>, w: Window)
    ensures |Surviving(ts, w)| <= |ts|
    ensures forall t :: t in Surviving(ts, w) <==> t in ts && SurvivesDay(t, w)
  {
    if ts != [] {
      var init := ts[..|ts| - 1];
      SurvivingFrom(init, w);
      assert ts == init + [ts[|ts| - 1]];
    }
  }

  lemma {:induction false} SurvivingDistinct(ts: seq<Trade>, w: Window)
    requires DistinctIds(ts)
    ensures DistinctIds(Surviving(ts, w))
  {
    if ts != [] {
      var init, last := ts[..|ts| - 1], ts[|ts| - 1];
      SurvivingDistinct(init, w);
      SurvivingFrom(init, w);
      forall i | 0 <= i < |Surviving(init, w)|
        ensures Surviving(init, w)[i].id != last.id
      {
        assert Surviving(init, w)[i] in init;
      }
    }
  }

  lemma {:induction false} ReindexedIndexes(ts: seq<Trade>)
    requires DistinctIds(ts)
    ensures TradesIndexed(ts, Reindexed(ts))
  {
    if ts != [] {
      ReindexedIndexes(ts[..|ts| - 1]);
    }
  }

  /** Closes settled trades whose date left the window. */
  function Compacted(d: Ledger): (r: Ledger)
    requires WellFormed(d)
    ensures WellFormed(r)
  {
    var ts := Surviving(d.trades, d.window);
    CompactedWellFormed(d, ts);
    d.(trades := ts, tradeIndex := Reindexed(ts))
  }

  lemma CompactedWellFormed(d: Ledger, ts: seq<Trade>)
    requires WellFormed(d) && ts == Surviving(d.trades, d.window)
    ensures WellFormed(d.(trades := ts, tradeIndex := Reindexed(ts)))
  {
    hide AccountsIndexed, InstrumentsIndexed, PositionsIndexed, PositionsOwned, SurvivesDay, Fits;
    SurvivingFrom(d.trades, d.window);
    SurvivingDistinct(d.trades, d.window);
    ReindexedIndexes(ts);
    forall i | 0 <= i < |ts|
      ensures ts[i].account < |d.accounts| && ts[i].instrument < |d.instruments|
    {
      assert ts[i] in d.trades;
    }
  }

  function TurnDay(d: Ledger, today: Date, to: Window, previous: Date): (r: Ledger)
    requires WellFormed(d)
    ensures WellFormed(r)
  {
    RotationFits(d.actions, today, d.cap.windowDays, TableSize(d.cap.actionsPerGen));
    RotationFits(d.income, today, d.cap.windowDays, TableSize(d.cap.actionsPerGen));
    d.(custody := RotatedCustody(d.custody, d.window, to), accounts := RotatedAccounts(d.accounts, d.window, to),
       window := to, businessDate := today, prevBusinessDate := previous,
       actions := MaybeRotate(d.actions, today, d.cap.windowDays),
       income := MaybeRotate(d.income, today, d.cap.windowDays))
  }

  lemma RotationFits(s: TwoGen, today: Date, window: int, slots: nat)
    requires Fits(s, slots)
    ensures Fits(MaybeRotate(s, today, window), slots)
  {
    hide DayIndex;
  }

  function ApplyDayOpened(d: Ledger, today: Date, d1: Date, d2: Date, previous: Date): (r: Applied)
    requires WellFormed(d)
    ensures WellFormed(r.d) && Quiet(r)
  {
    if today == 0 then Rejected(d, InvalidArgument)
    else if d.businessDate != 0 && today <= d.businessDate then Rejected(d, InvalidTransition)
    else Applied(Compacted(TurnDay(d, today, Window(today, d1, d2), previous)), Ok, [])
  }

  // ---------------------------------------------------------------- trades

  function UpdateOf(d: Ledger, pos: nat): PositionUpdate
    requires WellFormed(d) && pos < |d.custody|
  {
    var p := d.custody[pos];
    PositionUpdate(d.accounts[p.account].document, p.b.available, p.b.avgPrice, d.instruments[p.instrument].id)
  }

  /** The last check of a mutating event: a negative bucket is corruption, and nothing is staged. */
  function Checked(d: Ledger, pos: nat): (r: Applied)
    requires WellFormed(d) && pos < |d.custody|
    ensures Quiet(r) && r.d == d
  {
    if BucketsNonNegative(d.custody[pos].b) then Applied(d, Ok, [UpdateOf(d, pos)]) else Rejected(d, StateCorrupt)
  }

  /** Why an execution is refused, once its rows are known. */
  function ExecutionError(x: Execution, b: Balances): (r: Err)
    ensures !IsFatal(r)
  {
    if x.qty <= 0 || !Within(x.qty, MAX_QTY) then Overflow
    else if x.price < 0 || x.price > MAX_PRICE then Overflow
    else if exists i :: 0 <= i < |x.fees| && !Within(x.fees[i], MAX_MONEY) then Overflow
    else if !Within(TotalFees(x.fees), MAX_INT64) then Overflow
    else if x.side != BUY && !x.shortFlag && b.available < x.qty then ShortSaleNotAllowed
    else Ok
  }

  function Amount(x: Execution, factor: nat): int
    requires factor > 0
  {
    var gross := Notional(x.qty, x.price, factor);
    if x.side == BUY then -(gross + TotalFees(x.fees)) else gross - TotalFees(x.fees)
  }

  function ApplyTradeExecuted(d: Ledger, x: Execution): (r: Applied)
    requires WellFormed(d)
    ensures WellFormed(r.d) && Quiet(r)
  {
    hide WellFormed, InternAccount, InternInstrument, InternPosition;
    if |d.trades| >= d.cap.trades then Rejected(d, ArenaExhausted)
    else if x.id in d.tradeIndex then Rejected(d, AlreadyApplied)
    else
      match InternAccount(d, x.account)
      case TableFull => Rejected(d, ArenaExhausted)
      case Row(d1, acct) =>
        match InternInstrument(d1, x.instrument)
        case TableFull => Rejected(d1, ArenaExhausted)
        case Row(d2, inst) =>
          if d2.instruments[inst].factor == 0 then Rejected(d2, InstrumentNotDescribed)
          else
            match SlotOf(d2.window, x.date)
            case NoSlot => Rejected(d2, OutsideSettlementWindow)
            case InSlot(k) =>
              match InternPosition(d2, acct, inst)
              case TableFull => Rejected(d2, ArenaExhausted)
              case Row(d3, pos) =>
                var why := ExecutionError(x, d3.custody[pos].b);
                if why != Ok then Rejected(d3, why) else Checked(WithTrade(d3, x, acct, inst, pos, k), pos)
  }

  function WithTrade(d: Ledger, x: Execution, acct: nat, inst: nat, pos: nat, k: nat): (r: Ledger)
    requires WellFormed(d) && acct < |d.accounts| && inst < |d.instruments| && pos < |d.custody| && k < 3
    requires d.instruments[inst].factor > 0 && x.id !in d.tradeIndex && |d.trades| < d.cap.trades
    ensures WellFormed(r) && |r.custody| == |d.custody|
  {
    var amount := Amount(x, d.instruments[inst].factor);
    var b := ExecuteBalances(d.custody[pos].b, x.side == BUY, k, x.qty, x.shortFlag);
    var m := d.accounts[acct].m;
    var t := Trade(x.id, x.note, acct, inst, x.qty, x.price, amount, x.date, x.side, NextState(Absent, Execute));
    AddTrade(SetFunds(SetBalances(d, pos, b), acct, m.(pending := Plus(m.pending, k, amount))), t)
  }

  function AllocationError(a: Allocation, from: Balances, to: Balances, k: nat): (r: Err)
    requires k < 3
    ensures !IsFatal(r)
  {
    if a.side == BUY then
      if At(from.pendingBuy, k) < a.qty then QtyMismatch else Ok
    else if At(from.pendingSell, k) < a.qty then QtyMismatch
    else if !to.shortAllowed && to.available < a.qty then ShortSaleNotAllowed
    else Ok
  }

  function ApplyTradeAllocated(d: Ledger, a: Allocation): (r: Applied)
    requires WellFormed(d)
    ensures WellFormed(r.d) && Quiet(r)
  {
    RowsInRange(d);
    hide WellFormed, InternAccount;
    if a.trade !in d.tradeIndex then Rejected(d, NotFound)
    else
      var t := d.tradeIndex[a.trade];
      if NextState(d.trades[t].state, Allocate) == Absent then Rejected(d, InvalidTransition)
      else
        match InternAccount(d, a.from)
        case TableFull => Rejected(d, ArenaExhausted) // and so for the receiver: a full table refuses both
        case Row(d1, from) =>
          match InternAccount(d1, a.to)
          case TableFull => Rejected(d1, ArenaExhausted)
          case Row(d2, to) => AllocateRows(d2, a, t, from, to)
  }

  function AllocateRows(d: Ledger, a: Allocation, t: nat, from: nat, to: nat): (r: Applied)
    requires WellFormed(d) && t < |d.trades| && from < |d.accounts| && to < |d.accounts|
    ensures WellFormed(r.d) && Quiet(r)
  {
    RowsInRange(d);
    hide WellFormed, AllocateAcross;
    match SlotOf(d.window, a.date)
    case NoSlot => Rejected(d, OutsideSettlementWindow)
    case InSlot(k) =>
      if a.qty != d.trades[t].qty then Rejected(d, QtyMismatch)
      else if from == to then Applied(Fixed(d, t), Ok, [])
      else AllocateAcross(d, a, t, from, to, k)
  }

  /** The trade's holder is fixed: it moves along its edge. */
  function Fixed(d: Ledger, t: nat): (r: Ledger)
    requires WellFormed(d) && t < |d.trades|
    ensures WellFormed(r)
  {
    RowsInRange(d);
    hide WellFormed;
    SetTrade(d, t, Advanced(d.trades[t], Allocate))
  }

  /** The part of an allocation that moves buckets between two accounts. */
  function AllocateAcross(d: Ledger, a: Allocation, t: nat, from: nat, to: nat, k: nat): (r: Applied)
    requires WellFormed(d) && t < |d.trades| && from < |d.accounts| && to < |d.accounts| && from != to && k < 3
    requires d.trades[t].instrument < |d.instruments|
    ensures WellFormed(r.d) && Quiet(r)
  {
    hide WellFormed, InternPosition, Moved, BucketsNonNegative, AllocationError;
    var inst := d.trades[t].instrument;
    match InternPosition(d, from, inst)
    case TableFull => Rejected(d, ArenaExhausted)
    case Row(d1, p) =>
      match InternPosition(d1, to, inst)
      case TableFull => Rejected(d1, ArenaExhausted)
      case Row(d2, q) =>
        var why := AllocationError(a, d2.custody[p].b, d2.custody[q].b, k);
        if why != Ok then Rejected(d2, why)
        else
          var d3 := Moved(d2, a, t, from, to, p, q, k);
          if BucketsNonNegative(d3.custody[p].b) && BucketsNonNegative(d3.custody[q].b) then
            Applied(Fixed(d3, t), Ok, [])
          else Rejected(d3, StateCorrupt)
  }

  /** Buckets, money and the trade itself move from one account to the other. */
  function Moved(d: Ledger, a: Allocation, t: nat, from: nat, to: nat, p: nat, q: nat, k: nat): (r: Ledger)
    requires WellFormed(d) && t < |d.trades| && from < |d.accounts| && to < |d.accounts| && k < 3
    requires p < |d.custody| && q < |d.custody| && d.trades[t].instrument < |d.instruments|
    ensures WellFormed(r) && |r.custody| == |d.custody| && |r.trades| == |d.trades|
  {
    hide WellFormed;
    var buy := a.side == BUY;
    var m := d.accounts[from].m;
    var d1 := SetFunds(SetBalances(d, p, AllocateFrom(d.custody[p].b, buy, k, a.qty)), from,
                       m.(pending := Plus(m.pending, k, -a.cash)));
    var n := d1.accounts[to].m;
    var d2 := SetFunds(SetBalances(d1, q, AllocateTo(d1.custody[q].b, buy, k, a.qty)), to,
                       n.(pending := Plus(n.pending, k, a.cash)));
    SetTrade(d2, t, d2.trades[t].(account := to))
  }

  function ApplyBatchNetted(d: Ledger, account: U64, net: int, date: Date, count: nat): (r: Applied)
    requires WellFormed(d)
    ensures WellFormed(r.d) && Quiet(r)
  {
    hide WellFormed, InternAccount, PushException;
    match InternAccount(d, account)
    case TableFull => Rejected(d, ArenaExhausted)
    case Row(d1, acct) =>
      match SlotOf(d1.window, date)
      case NoSlot => Rejected(d1, OutsideSettlementWindow)
      case InSlot(k) =>
        var ours := At(d1.accounts[acct].m.pending, k);
        if ours != net then
          var why := ExceptionRecord(account, ours - net, 0, date, AmountMismatch);
          Rejected(PushException(d1, why, false), AmountMismatch)
        else
          var counted := CountNetted(d1.trades, acct, date);
          var d2 := SetStates(d1, NettedTrades(d1.trades, acct, date));
          if count != 0 && counted != count then
            Applied(PushException(d2, ExceptionRecord(account, counted - count, 0, date, QtyMismatch), false), Ok, [])
          else Applied(d2, Ok, [])
  }

  function ApplyTradeSettled(d: Ledger, e: Settlement): (r: Applied)
    requires WellFormed(d)
    ensures WellFormed(r.d) && Quiet(r)
  {
    hide WellFormed, InternAccount, InternInstrument, SettleBuckets;
    match InternAccount(d, e.account)
    case TableFull => Rejected(d, ArenaExhausted)
    case Row(d1, acct) =>
      match InternInstrument(d1, e.instrument)
      case TableFull => Rejected(d1, ArenaExhausted)
      case Row(d2, inst) =>
        RowsInRange(d2);
        if PositionKey(acct, inst) !in d2.positionIndex then Rejected(d2, NotFound)
        else
          var pos := d2.positionIndex[PositionKey(acct, inst)];
          match SettleBuckets(d2.custody[pos].b, d2.accounts[acct].m, e, SlotOf(d2.window, e.date))
          case Refuses(why) => Rejected(d2, why)
          case Moves(b, m) => Checked(SettledRows(d2, e, acct, inst, pos, b, m), pos)
  }

  function SettledRows(d: Ledger, e: Settlement, acct: nat, inst: nat, pos: nat, b: Balances, m: Funds): (r: Ledger)
    requires WellFormed(d) && acct < |d.accounts| && pos < |d.custody|
    ensures WellFormed(r) && |r.custody| == |d.custody|
  {
    hide WellFormed, PushException;
    var d1 := SetFunds(SetBalances(d, pos, b), acct, m);
    var d2 := if e.outcome != DeliveryFailure then d1
              else Noted(d1, ExceptionRecord(e.account, e.qty, e.instrument, e.date, QtyMismatch));
    SetStates(d2, SettledTrades(d2.trades, acct, inst, e.date, e.side, TriggerOf(e.outcome)))
  }

  /** `PushException` with what it leaves alone. */
  function Noted(d: Ledger, r: ExceptionRecord): (d': Ledger)
    requires WellFormed(d)
    ensures WellFormed(d')
    ensures d' == d.(exceptions := d'.exceptions, exceptionCount := d'.exceptionCount,
                     exceptionDropped := d'.exceptionDropped, diverged := d'.diverged)
  {
    PushException(d, r, false)
  }

  function ApplyCorporateAction(d: Ledger, e: Action): (r: Applied)
    requires WellFormed(d)
    ensures WellFormed(r.d) && Quiet(r)
  {
    hide WellFormed, InternAccount, InternInstrument, InternPosition, ActionBuckets;
    match InternAccount(d, e.account)
    case TableFull => Rejected(d, ArenaExhausted)
    case Row(d1, acct) =>
      match InternInstrument(d1, e.instrument)
      case TableFull => Rejected(d1, ArenaExhausted)
      case Row(d2, inst) =>
        match InternPosition(d2, acct, inst)
        case TableFull => Rejected(d2, ArenaExhausted)
        case Row(d3, pos) => ActOn(d3, e, acct, pos)
  }

  /** An action on rows that exist: checks, the idempotency key, then the buckets. */
  function ActOn(d: Ledger, e: Action, acct: nat, pos: nat): (r: Applied)
    requires WellFormed(d) && acct < |d.accounts| && pos < |d.custody|
    ensures WellFormed(r.d) && Quiet(r)
  {
    hide WellFormed, ActionBuckets;
    if ActionError(e) != Ok then Rejected(d, ActionError(e))
    else
      match Insert(d.actions, AppliedKey(e.id, acct), TableSize(d.cap.actionsPerGen))
      case Full => Rejected(d, ArenaExhausted)
      case Duplicate => Rejected(d, AlreadyApplied)
      case New(actions) =>
        var d1 := WithActions(d, AppliedKey(e.id, acct), actions);
        match ActionBuckets(d1.custody[pos].b, e)
        case Denies(why) => Rejected(d1, why)
        case Acts(b, moved, cash) => Checked(ActedRows(d1, e, acct, pos, b, moved, cash), pos)
  }

  function ActedRows(d: Ledger, e: Action, acct: nat, pos: nat, b: Balances, moved: int, cash: int): (r: Ledger)
    requires WellFormed(d) && acct < |d.accounts| && pos < |d.custody|
    ensures WellFormed(r) && |r.custody| == |d.custody|
  {
    hide WellFormed, PushException;
    var m := d.accounts[acct].m;
    var d1 := SetFunds(SetBalances(d, pos, b), acct, m.(cash := m.cash + cash, income := m.income - e.withheld));
    if e.verify && moved != e.qtyDelta then
      Noted(d1, ExceptionRecord(e.account, moved - e.qtyDelta, e.instrument, e.exDate, QtyMismatch))
    else d1
  }

  lemma InsertFits(s: TwoGen, k: AppliedKey, slots: nat)
    requires Fits(s, slots) && Insert(s, k, slots).New?
    ensures Fits(Insert(s, k, slots).after, slots)
  {
  }

  function WithActions(d: Ledger, k: AppliedKey, s: TwoGen): (r: Ledger)
    requires WellFormed(d) && Insert(d.actions, k, TableSize(d.cap.actionsPerGen)) == New(s)
    ensures WellFormed(r)
  {
    InsertFits(d.actions, k, TableSize(d.cap.actionsPerGen));
    d.(actions := s)
  }

  function WithIncome(d: Ledger, k: AppliedKey, s: TwoGen): (r: Ledger)
    requires WellFormed(d) && Insert(d.income, k, TableSize(d.cap.actionsPerGen)) == New(s)
    ensures WellFormed(r)
  {
    InsertFits(d.income, k, TableSize(d.cap.actionsPerGen));
    d.(income := s)
  }

  function DividendFunds(m: Funds, p: Dividend): Funds {
    if p.accrued then m.(income := m.income + p.net) else m.(income := m.income - p.net, cash := m.cash + p.net)
  }

  function ApplyDividendPaid(d: Ledger, p: Dividend): (r: Applied)
    requires WellFormed(d)
    ensures WellFormed(r.d) && Quiet(r)
  {
    hide WellFormed, InternAccount, PushException;
    match InternAccount(d, p.account)
    case TableFull => Rejected(d, ArenaExhausted)
    case Row(d1, acct) =>
      if p.gross - p.withheld != p.net then Rejected(d1, AmountMismatch)
      else if !Within(p.basis, MAX_QTY) || !Within(p.rate, MAX_MONEY) then Rejected(d1, Overflow)
      else
        var gap := p.gross - MulDiv(HalfEven, p.basis, p.rate, ONE_SHARE);
        if gap > 100 || gap < -100 then
          Rejected(PushException(d1, ExceptionRecord(p.account, gap, p.instrument, p.exDate, AmountMismatch), false),
                   AmountMismatch)
        else
          match Insert(d1.income, AppliedKey(p.id, acct), TableSize(d1.cap.actionsPerGen))
          case Full => Rejected(d1, ArenaExhausted)
          case Duplicate => Rejected(d1, AlreadyApplied)
          case New(income) =>
            var d2 := WithIncome(d1, AppliedKey(p.id, acct), income);
            Applied(SetFunds(d2, acct, DividendFunds(d2.accounts[acct].m, p)), Ok, [])
  }

  function ApplyClosingPrice(d: Ledger, q: Closing): (r: Applied)
    requires WellFormed(d)
    ensures WellFormed(r.d) && Quiet(r)
  {
    hide WellFormed, InternInstrument;
    if q.factor == 0 then Rejected(d, InvalidArgument)
    else
      match InternInstrument(d, q.instrument)
      case TableFull => Rejected(d, ArenaExhausted)
      case Row(d1, inst) =>
        var row := Instrument(q.instrument, q.symbol, q.isin, q.kind, q.factor, q.lot, q.closing, q.previous, q.date);
        Applied(SetInstrument(d1, inst, row), Ok, [])
  }

  function Reconciled(d: Ledger, date: Date, ds: seq<Divergence>): (r: Ledger)
    requires WellFormed(d)
    ensures WellFormed(r)
    decreases |ds|
  {
    if ds == [] then d
    else
      Reconciled(PushException(d, ExceptionRecord(ds[0].account, ds[0].qtyDelta, ds[0].instrument, date, QtyMismatch),
                               true), date, ds[1..])
  }

  /** Sums as 64-bit counters that wrap. */
  function CustodySum(rows: seq<Position>): int {
    if rows == [] then 0 else CustodySum(rows[..|rows| - 1]) + BalancesSum(rows[|rows| - 1].b)
  }

  function BalancesSum(b: Balances): int {
    b.available + b.blocked + b.leftovers + b.overdueBuy + b.overdueSell + b.avgPrice + Sum(b.pendingBuy)
    + Sum(b.pendingSell)
  }

  function CashSum(rows: seq<Account>): int {
    if rows == [] then 0 else CashSum(rows[..|rows| - 1]) + AllMoney(rows[|rows| - 1].m)
  }

  function Wrap64(x: int): U64 {
    x % 0x1_0000_0000_0000_0000
  }

  function ApplyEodMarked(d: Ledger, custodySum: U64, cashSum: U64, diverged: bool): (r: Applied)
    ensures Quiet(r)
  {
    if (custodySum != 0 || cashSum != 0)
       && (Wrap64(CustodySum(d.custody)) != custodySum || Wrap64(CashSum(d.accounts)) != cashSum) then
      Rejected(d, StateCorrupt)
    else Applied(d.(diverged := d.diverged || diverged), Ok, [])
  }

  // ---------------------------------------------------------------- dispatch

  function Dispatch(d: Ledger, e: Event): (r: Applied)
    requires WellFormed(d)
    ensures WellFormed(r.d) && Quiet(r)
  {
    match e
    case DayOpened(today, d1, d2, previous) => ApplyDayOpened(d, today, d1, d2, previous)
    case TradeExecuted(x) => ApplyTradeExecuted(d, x)
    case TradeAllocated(a) => ApplyTradeAllocated(d, a)
    case BatchNetted(account, net, date, count) => ApplyBatchNetted(d, account, net, date, count)
    case TradeSettled(s) => ApplyTradeSettled(d, s)
    case CorporateActionApplied(c) => ApplyCorporateAction(d, c)
    case DividendPaid(p) => ApplyDividendPaid(d, p)
    case ClosingPriceSet(q) => ApplyClosingPrice(d, q)
    case CustodyReconciled(date, ds) => Applied(Reconciled(d, date, ds), Ok, [])
    case EodMarked(custodySum, cashSum, diverged) => ApplyEodMarked(d, custodySum, cashSum, diverged)
    case Unreadable(why) => Rejected(d, if why == ShortPayload then ShortPayload else UnknownTemplate)
  }

  /** One event: the ledger remembers its LSN whatever the answer. */
  function Apply(d: Ledger, lsn: nat, e: Event): (r: Applied)
    requires WellFormed(d)
    ensures WellFormed(r.d) && r.d.appliedLsn == lsn && Quiet(r)
  {
    var r := Dispatch(d, e);
    r.(d := r.d.(appliedLsn := lsn))
  }

  datatype Ran = Ran(d: Ledger, st: Err)

  /** Events one after the other, from LSN `lsn` on, until one is fatal. */
  function Run(d: Ledger, lsn: nat, es: seq<Event>): (r: Ran)
    requires WellFormed(d)
    ensures WellFormed(r.d)
    decreases |es|
  {
    if es == [] then Ran(d, Ok)
    else
      var a := Apply(d, lsn, es[0]);
      if IsFatal(a.st) then Ran(a.d, a.st) else Run(a.d, lsn + 1, es[1..])
  }
}
