/** Double entry: what the books hold is the sum of what was accepted, over every run. */
module DoubleEntry {
  import opened Bytes
  import opened Status
  import opened Ledgers
  import opened Applying
  import opened Footprints
  import LedgerLaws

  /** What an accepted event adds to the three totals of one owner in one instrument. */
  datatype Flow = Flow(today: int, projected: int, money: int)

  const NO_FLOW := Flow(0, 0, 0)

  function Signed(side: nat, x: int): int {
    if side == BUY then x else -x
  }

  /** Custody moves when shares are delivered; the projection when a trade is struck or changes hands; money when
      a trade is struck or changes hands and when income falls due. A failed delivery or a day moves nothing. */
  function FlowOf(d: Ledger, e: Event, doc: U64, inst: U32): Flow
    requires WellFormed(d)
  {
    match e
    case TradeExecuted(x) =>
      if x.account != doc then NO_FLOW
      else Flow(0, if x.instrument == inst then Signed(x.side, x.qty) else 0,
                if FactorOf(d, x.instrument) > 0 then Amount(x, FactorOf(d, x.instrument)) else 0)
    case TradeAllocated(a) =>
      if a.from == a.to then NO_FLOW
      else
        var here := a.trade in d.tradeIndex && TradeInstrument(d, a.trade) == inst;
        if doc == a.from then Flow(0, if here then -Signed(a.side, a.qty) else 0, -a.cash)
        else if doc == a.to then Flow(0, if here then Signed(a.side, a.qty) else 0, a.cash)
        else NO_FLOW
    case TradeSettled(s) =>
      Flow(if s.account == doc && s.instrument == inst && s.outcome != DeliveryFailure then
             Signed(s.side, s.qty)
           else 0,
           0, 0)
    case DividendPaid(p) => Flow(0, 0, if p.account == doc && p.accrued then p.net else 0)
    case _ => NO_FLOW
  }

  function Plus(f: Flow, g: Flow): Flow {
    Flow(f.today + g.today, f.projected + g.projected, f.money + g.money)
  }

  /** The sum of the flows of the accepted events of a run. */
  function Flows(d: Ledger, lsn: nat, es: seq<Event>, doc: U64, inst: U32): Flow
    requires WellFormed(d)
    decreases |es|
  {
    if es == [] then NO_FLOW
    else
      var a := Apply(d, lsn, es[0]);
      if IsFatal(a.st) then NO_FLOW
      else
        Plus(if a.st == Ok then FlowOf(d, es[0], doc, inst) else NO_FLOW, Flows(a.d, lsn + 1, es[1..], doc, inst))
  }

  function Totals(d: Ledger, doc: U64, inst: U32): Flow
    requires WellFormed(d)
  {
    Flow(CustodyToday(BalancesOf(d, doc, inst)), CustodyProjected(BalancesOf(d, doc, inst)), AllMoney(FundsOf(d, doc)))
  }

  // ---------------------------------------------------------------- bucket by bucket

  lemma TurnKeepsSum(t: Three, from: Window, to: Window)
    ensures Sum(Turn(t, from, to).kept) + Turn(t, from, to).out == Sum(t)
  {
  }

  /** Opening a day moves what fell out of the window to overdue and loses nothing. */
  lemma RotationKeeps(b: Balances, m: Funds, from: Window, to: Window)
    ensures CustodyToday(RotateBalances(b, from, to)) == CustodyToday(b)
    ensures CustodyProjected(RotateBalances(b, from, to)) == CustodyProjected(b)
    ensures AllMoney(RotateFunds(m, from, to)) == AllMoney(m)
  {
    hide Turn;
    TurnKeepsSum(b.pendingBuy, from, to);
    TurnKeepsSum(b.pendingSell, from, to);
    TurnKeepsSum(m.pending, from, to);
  }

  lemma SettleFlows(b: Balances, m: Funds, s: Settlement, slot: Slot)
    requires slot.InSlot? ==> slot.k < 3
    requires SettleBuckets(b, m, s, slot).Moves?
    ensures var r := SettleBuckets(b, m, s, slot);
            && CustodyToday(r.b)
               == CustodyToday(b) + (if s.outcome == DeliveryFailure then 0 else Signed(s.side, s.qty))
            && CustodyProjected(r.b) == CustodyProjected(b) && AllMoney(r.m) == AllMoney(m)
  {
  }

  /** One accepted event moves the totals by its flow, and no other event moves them at all. */
  lemma StepFlow(d: Ledger, e: Event, doc: U64, inst: U32)
    requires WellFormed(d) && !e.CorporateActionApplied?
    requires Dispatch(d, e).st != StateCorrupt
    ensures Totals(Dispatch(d, e).d, doc, inst)
         == if Dispatch(d, e).st == Ok then Plus(Totals(d, doc, inst), FlowOf(d, e, doc, inst))
            else Totals(d, doc, inst)
  {
    hide WellFormed, BalancesOf, FundsOf, FactorOf, TradeInstrument, RotateBalances, RotateFunds, SettleBuckets, Amount;
    hide ApplyTradeExecuted, ApplyTradeAllocated, ApplyTradeSettled, ApplyCorporateAction, ApplyBatchNetted, Reconciled;
    hide ApplyDayOpened, ApplyDividendPaid, ApplyClosingPrice;
    Effect(d, e, doc, inst);
    if Dispatch(d, e).st == Ok {
      match e
      case DayOpened(today, d1, d2, _) =>
        RotationKeeps(BalancesOf(d, doc, inst), FundsOf(d, doc), d.window, Window(today, d1, d2));
      case TradeExecuted(x) => ExecutedFlow(d, x, doc, inst);
      case TradeAllocated(a) => AllocatedFlow(d, a, doc, inst);
      case TradeSettled(s) => SettledFlow(d, s, doc, inst);
      case _ =>
    }
  }

  ghost predicate Follows(d: Ledger, e: Event, doc: U64, inst: U32)
    requires WellFormed(d)
  {
    var f := FlowOf(d, e, doc, inst);
    && CustodyToday(BalancesAfter(d, e, doc, inst)) == CustodyToday(BalancesOf(d, doc, inst)) + f.today
    && CustodyProjected(BalancesAfter(d, e, doc, inst)) == CustodyProjected(BalancesOf(d, doc, inst)) + f.projected
    && AllMoney(FundsAfter(d, e, doc)) == AllMoney(FundsOf(d, doc)) + f.money
  }

  lemma ExecutedFlow(d: Ledger, x: Execution, doc: U64, inst: U32)
    requires WellFormed(d) && ApplyTradeExecuted(d, x).st == Ok
    ensures Follows(d, TradeExecuted(x), doc, inst)
  {
    hide WellFormed, BalancesOf, FundsOf, FactorOf, Amount, ApplyTradeExecuted, ExecutionError;
    LedgerLaws.ExecutedGuard(d, x);
  }

  lemma AllocatedFlow(d: Ledger, a: Allocation, doc: U64, inst: U32)
    requires WellFormed(d) && ApplyTradeAllocated(d, a).st == Ok
    ensures Follows(d, TradeAllocated(a), doc, inst)
  {
    hide WellFormed, BalancesOf, FundsOf, TradeInstrument, ApplyTradeAllocated, AllocationError;
    LedgerLaws.AllocatedGuard(d, a);
  }

  lemma SettledFlow(d: Ledger, s: Settlement, doc: U64, inst: U32)
    requires WellFormed(d) && ApplyTradeSettled(d, s).st == Ok
    ensures Follows(d, TradeSettled(s), doc, inst)
  {
    hide WellFormed, BalancesOf, FundsOf, SettleBuckets, ApplyTradeSettled;
    LedgerLaws.SettledGuard(d, s);
    SettleFlows(BalancesOf(d, s.account, s.instrument), FundsOf(d, s.account), s, SlotOf(d.window, s.date));
  }

  lemma StampView(d: Ledger, lsn: nat, doc: U64, inst: U32)
    requires WellFormed(d)
    ensures WellFormed(d.(appliedLsn := lsn)) && Totals(d.(appliedLsn := lsn), doc, inst) == Totals(d, doc, inst)
  {
  }

  /** What the first event of a run flows, then the rest of it. */
  lemma FlowsStep(d: Ledger, lsn: nat, es: seq<Event>, doc: U64, inst: U32)
    requires WellFormed(d) && es != [] && !IsFatal(Apply(d, lsn, es[0]).st)
    ensures var a := Apply(d, lsn, es[0]);
            && Run(d, lsn, es) == Run(a.d, lsn + 1, es[1..])
            && Flows(d, lsn, es, doc, inst)
               == Plus(if a.st == Ok then FlowOf(d, es[0], doc, inst) else NO_FLOW,
                       Flows(a.d, lsn + 1, es[1..], doc, inst))
  {
    hide WellFormed, Apply, FlowOf, IsFatal;
  }

  lemma NothingFlows(d: Ledger, lsn: nat, doc: U64, inst: U32)
    requires WellFormed(d)
    ensures Run(d, lsn, []).d == d && Flows(d, lsn, [], doc, inst) == NO_FLOW
  {
    hide WellFormed;
  }

  lemma FlowsSum(t: Flow, f: Flow, g: Flow)
    ensures Plus(Plus(t, f), g) == Plus(t, Plus(f, g)) && Plus(t, NO_FLOW) == t
    ensures Plus(t, g) == Plus(t, Plus(NO_FLOW, g))
  {
  }

  /** Double entry over a whole run without corporate actions, through every day, failed delivery and buy-in. The run is
      of the ledger: of a partition it speaks while every trade given away is given by its holder, which the source does
      not check and its lists rely on (`PartitionStates.KeepsTrades`). */
  lemma {:induction false} BooksBalance(d: Ledger, lsn: nat, es: seq<Event>, doc: U64, inst: U32)
    requires WellFormed(d) && !IsFatal(Run(d, lsn, es).st)
    requires forall i :: 0 <= i < |es| ==> !es[i].CorporateActionApplied?
    ensures Totals(Run(d, lsn, es).d, doc, inst) == Plus(Totals(d, doc, inst), Flows(d, lsn, es, doc, inst))
    decreases |es|
  {
    hide WellFormed, Totals, FlowOf, Dispatch, Run, Flows, Plus, IsFatal;
    if es == [] {
      NothingFlows(d, lsn, doc, inst);
      FlowsSum(Totals(d, doc, inst), NO_FLOW, NO_FLOW);
    } else {
      RunSurvives(d, lsn, es);
      var a := Apply(d, lsn, es[0]);
      FlowsStep(d, lsn, es, doc, inst);
      OkOrCorrupt(a.st);
      StepFlow(d, es[0], doc, inst);
      StampView(Dispatch(d, es[0]).d, lsn, doc, inst);
      BooksBalance(a.d, lsn + 1, es[1..], doc, inst);
      FlowsSum(Totals(d, doc, inst), FlowOf(d, es[0], doc, inst), Flows(a.d, lsn + 1, es[1..], doc, inst));
    }
  }

  lemma OkOrCorrupt(e: Err)
    requires !IsFatal(e)
    ensures e != StateCorrupt
  {
  }

  lemma RunSurvives(d: Ledger, lsn: nat, es: seq<Event>)
    requires WellFormed(d) && es != [] && !IsFatal(Run(d, lsn, es).st)
    ensures !IsFatal(Apply(d, lsn, es[0]).st)
  {
    hide WellFormed, Apply, IsFatal;
  }

  /** From an empty ledger the totals are the flows. */
  lemma BooksFromNothing(cap: Capacity, es: seq<Event>, doc: U64, inst: U32)
    requires !IsFatal(Run(NewLedger(cap), 1, es).st)
    requires forall i :: 0 <= i < |es| ==> !es[i].CorporateActionApplied?
    ensures Totals(Run(NewLedger(cap), 1, es).d, doc, inst) == Flows(NewLedger(cap), 1, es, doc, inst)
  {
    hide Run, Flows, Totals, WellFormed;
    BooksBalance(NewLedger(cap), 1, es, doc, inst);
    EmptyTotals(NewLedger(cap), doc, inst);
  }

  lemma EmptyTotals(d: Ledger, doc: U64, inst: U32)
    requires WellFormed(d) && doc !in d.accountIndex
    ensures Totals(d, doc, inst) == NO_FLOW
  {
    EmptyView(d, doc, inst);
    hide BalancesOf, FundsOf, WellFormed;
  }

  lemma EmptyView(d: Ledger, doc: U64, inst: U32)
    requires WellFormed(d) && doc !in d.accountIndex
    ensures BalancesOf(d, doc, inst) == NO_BALANCES && FundsOf(d, doc) == NO_FUNDS
  {
  }
}
