/** What may become of a trade: it moves along the edges of its graph, and leaves only when it is over. */
module TradeHistory {
  import opened Bytes
  import opened Status
  import opened Calendar
  import opened Ledgers
  import opened Applying
  import BucketLaws
  import Rejections

  /** One edge of the graph, or none. */
  predicate Edge(s: TradeState, t: TradeState) {
    s == t || exists g: Trigger :: NextState(s, g) == t && t != Absent
  }

  /** Only the state, and once the holder, may differ; the holder only as the trade is allocated. */
  predicate Along(t: Trade, u: Trade) {
    && u == t.(state := u.state, account := u.account) && Edge(t.state, u.state)
    && (u.account != t.account ==> t.state == Executed && u.state == Allocated)
  }

  /** Row by row, from one table to another of which it is the beginning. */
  ghost predicate AllAlong(ts: seq<Trade>, us: seq<Trade>) {
    |ts| <= |us| && forall i :: 0 <= i < |ts| ==> Along(ts[i], us[i])
  }

  lemma Itself(ts: seq<Trade>)
    ensures AllAlong(ts, ts)
  {
  }

  lemma AdvancedAlong(t: Trade, g: Trigger)
    ensures Along(t, Advanced(t, g))
  {
  }

  lemma ExecutedAlong(d: Ledger, x: Execution)
    requires WellFormed(d)
    ensures AllAlong(d.trades, ApplyTradeExecuted(d, x).d.trades)
  {
    hide WellFormed, InternAccount, InternInstrument, InternPosition, Amount, ExecuteBalances;
    hide BucketsNonNegative, Along, ExecutionError, AllAlong, WithTrade;
    Itself(d.trades);
    forall e: Ledger, acct: nat, inst: nat, pos: nat, k: nat
      | WellFormed(e) && acct < |e.accounts| && inst < |e.instruments| && pos < |e.custody| && k < 3
        && e.instruments[inst].factor > 0 && x.id !in e.tradeIndex && |e.trades| < e.cap.trades
      ensures AllAlong(e.trades, WithTrade(e, x, acct, inst, pos, k).trades)
    {
      TradeAdded(e, x, acct, inst, pos, k);
    }
  }

  lemma TradeAdded(d: Ledger, x: Execution, acct: nat, inst: nat, pos: nat, k: nat)
    requires WellFormed(d) && acct < |d.accounts| && inst < |d.instruments| && pos < |d.custody| && k < 3
    requires d.instruments[inst].factor > 0 && x.id !in d.tradeIndex && |d.trades| < d.cap.trades
    ensures AllAlong(d.trades, WithTrade(d, x, acct, inst, pos, k).trades)
  {
    hide WellFormed, Along, Amount, ExecuteBalances;
    ItselfEach(d.trades);
  }

  lemma ItselfEach(ts: seq<Trade>)
    ensures forall t :: t in ts ==> Along(t, t)
  {
  }

  lemma NettedAlong(d: Ledger, account: U64, net: int, date: Date, count: nat)
    requires WellFormed(d)
    ensures AllAlong(d.trades, ApplyBatchNetted(d, account, net, date, count).d.trades)
  {
    hide WellFormed, InternAccount, CountNetted, Along, Advanced;
    var r := ApplyBatchNetted(d, account, net, date, count);
    forall i | 0 <= i < |d.trades|
      ensures Along(d.trades[i], d.trades[i]) && Along(d.trades[i], Advanced(d.trades[i], Net))
    {
      ItselfEach(d.trades);
      AdvancedAlong(d.trades[i], Net);
    }
  }

  lemma SettledAlong(d: Ledger, s: Settlement)
    requires WellFormed(d)
    ensures AllAlong(d.trades, ApplyTradeSettled(d, s).d.trades)
  {
    hide WellFormed, InternAccount, InternInstrument, SettleBuckets, BucketsNonNegative, Noted, Along, Advanced;
    forall i | 0 <= i < |d.trades|
      ensures Along(d.trades[i], d.trades[i]) && Along(d.trades[i], Advanced(d.trades[i], TriggerOf(s.outcome)))
    {
      ItselfEach(d.trades);
      AdvancedAlong(d.trades[i], TriggerOf(s.outcome));
    }
  }

  lemma AllocatedAlong(d: Ledger, a: Allocation)
    requires WellFormed(d) && ApplyTradeAllocated(d, a).st != StateCorrupt
    ensures AllAlong(d.trades, ApplyTradeAllocated(d, a).d.trades)
  {
    hide WellFormed, InternAccount, AllocateRows, AllAlong, Extends;
    Itself(d.trades);
    RowsInRange(d);
    if a.trade in d.tradeIndex && NextState(d.trades[d.tradeIndex[a.trade]].state, Allocate) != Absent {
      var i1 := InternAccount(d, a.from);
      if i1.Row? {
        ExtendsTables(d, i1.d);
        var i2 := InternAccount(i1.d, a.to);
        if i2.Row? {
          ExtendsTables(i1.d, i2.d);
          ExtendsSizes(i1.d, i2.d);
          RowsAlong(i2.d, a, d.tradeIndex[a.trade], i1.row, i2.row);
        }
      }
    }
  }

  lemma RowsAlong(d: Ledger, a: Allocation, t: nat, from: nat, to: nat)
    requires WellFormed(d) && t < |d.trades| && from < |d.accounts| && to < |d.accounts|
    requires NextState(d.trades[t].state, Allocate) != Absent && AllocateRows(d, a, t, from, to).st != StateCorrupt
    ensures AllAlong(d.trades, AllocateRows(d, a, t, from, to).d.trades)
  {
    hide WellFormed, AllocateAcross, AllAlong;
    Itself(d.trades);
    Rejections.TradeRow(d, t);
    var slot := SlotOf(d.window, a.date);
    if slot.InSlot? && a.qty == d.trades[t].qty {
      if from == to {
        FixedAlong(d, t, d.trades);
      } else {
        AcrossAlong(d, a, t, from, to, slot.k);
      }
    }
  }

  lemma FixedAlong(d: Ledger, t: nat, was: seq<Trade>)
    requires WellFormed(d) && t < |d.trades| && |was| == |d.trades| && NextState(was[t].state, Allocate) != Absent
    requires d.trades[t] == was[t].(account := d.trades[t].account)
    requires forall i :: 0 <= i < |was| && i != t ==> d.trades[i] == was[i]
    ensures AllAlong(was, Fixed(d, t).trades)
  {
    hide WellFormed, Along;
    var us := Fixed(d, t).trades;
    forall i | 0 <= i < |was|
      ensures Along(was[i], us[i])
    {
      ItselfEach(was);
      if i == t {
        HolderFixed(was[t], d.trades[t].account);
      }
    }
  }

  lemma HolderFixed(t: Trade, account: nat)
    requires NextState(t.state, Allocate) != Absent
    ensures Along(t, Advanced(t.(account := account), Allocate))
  {
    assert NextState(t.state, Allocate) == Allocated;
  }

  lemma AcrossAlong(d: Ledger, a: Allocation, t: nat, from: nat, to: nat, k: nat)
    requires WellFormed(d) && t < |d.trades| && from < |d.accounts| && to < |d.accounts| && from != to && k < 3
    requires d.trades[t].instrument < |d.instruments| && NextState(d.trades[t].state, Allocate) != Absent
    requires AllocateAcross(d, a, t, from, to, k).st != StateCorrupt
    ensures AllAlong(d.trades, AllocateAcross(d, a, t, from, to, k).d.trades)
  {
    hide WellFormed, InternPosition, AllocationError, BucketsNonNegative, Moved, Fixed, AllAlong, Extends;
    Itself(d.trades);
    var i := d.trades[t].instrument;
    var i1 := InternPosition(d, from, i);
    if i1.Row? {
      ExtendsTables(d, i1.d);
      ExtendsSizes(d, i1.d);
      var i2 := InternPosition(i1.d, to, i);
      if i2.Row? {
        ExtendsTables(i1.d, i2.d);
        ExtendsSizes(i1.d, i2.d);
        MovedTrades(i2.d, a, t, from, to, i1.row, i2.row, k);
        FixedAlong(Moved(i2.d, a, t, from, to, i1.row, i2.row, k), t, d.trades);
      }
    }
  }

  lemma MovedTrades(d: Ledger, a: Allocation, t: nat, from: nat, to: nat, p: nat, q: nat, k: nat)
    requires WellFormed(d) && t < |d.trades| && from < |d.accounts| && to < |d.accounts| && k < 3
    requires p < |d.custody| && q < |d.custody| && d.trades[t].instrument < |d.instruments|
    ensures Moved(d, a, t, from, to, p, q, k).trades == d.trades[t := d.trades[t].(account := to)]
  {
    hide WellFormed, AllocateFrom, AllocateTo;
  }

  /** Every event but the opening of a day keeps every trade, in its row, moved along at most one edge. */
  lemma TradesMoveAlong(d: Ledger, e: Event)
    requires WellFormed(d) && !IsFatal(Dispatch(d, e).st) && !e.DayOpened?
    ensures AllAlong(d.trades, Dispatch(d, e).d.trades)
  {
    hide WellFormed, AllAlong, ApplyTradeExecuted, ApplyTradeAllocated, ApplyTradeSettled, ApplyCorporateAction;
    hide ApplyBatchNetted, ApplyDividendPaid, ApplyClosingPrice, Reconciled;
    Itself(d.trades);
    match e
    case TradeExecuted(x) => ExecutedAlong(d, x);
    case TradeAllocated(a) => AllocatedAlong(d, a);
    case BatchNetted(account, net, date, count) => NettedAlong(d, account, net, date, count);
    case TradeSettled(s) => SettledAlong(d, s);
    case CorporateActionApplied(c) => BucketLaws.ActionKeepsTrades(d, c);
    case DividendPaid(p) => BucketLaws.DividendKeepsTrades(d, p);
    case ClosingPriceSet(q) => BucketLaws.ClosingKeepsTrades(d, q);
    case CustodyReconciled(date, ds) => BucketLaws.ReconciledKeepsTrades(d, date, ds);
    case _ =>
  }

  /** `us` is `ts` with some trades left out, in the same order. */
  ghost predicate Thinned(ts: seq<Trade>, us: seq<Trade>, w: Window) {
    if ts == [] then us == []
    else
      var init, last := ts[..|ts| - 1], ts[|ts| - 1];
      if us != [] && us[|us| - 1] == last && SurvivesDay(last, w) then Thinned(init, us[..|us| - 1], w)
      else !SurvivesDay(last, w) && Thinned(init, us, w)
  }

  lemma {:induction false} SurvivingThins(ts: seq<Trade>, w: Window)
    ensures Thinned(ts, Surviving(ts, w), w)
  {
    hide SurvivesDay;
    if ts != [] {
      var init, last := ts[..|ts| - 1], ts[|ts| - 1];
      SurvivingThins(init, w);
      if SurvivesDay(last, w) {
        assert Surviving(ts, w)[..|Surviving(ts, w)| - 1] == Surviving(init, w);
      }
    }
  }

  /** Opening a day drops exactly the settled trades whose date is outside the new window, and keeps the others, whole
      and in order. */
  lemma DayDropsOnlyFinished(d: Ledger, today: Date, d1: Date, d2: Date, previous: Date, t: Trade)
    requires WellFormed(d) && ApplyDayOpened(d, today, d1, d2, previous).st == Ok
    ensures var r, w := ApplyDayOpened(d, today, d1, d2, previous).d, Window(today, d1, d2);
            && Thinned(d.trades, r.trades, w)
            && (t in r.trades <==> t in d.trades && !(t.state == Settled && SlotOf(w, t.date).NoSlot?))
  {
    hide WellFormed;
    var w := Window(today, d1, d2);
    BucketLaws.TurnKeepsTrades(d, today, w, previous);
    SurvivingThins(d.trades, w);
    SurvivingFrom(d.trades, w);
  }

  /** Two edges the graph leaves out on purpose: a failed delivery is never settled directly, and no trade is netted
      before its holder is fixed. */
  lemma MissingEdges(s: TradeState)
    ensures Edge(DeliveryFailed, s) ==> s == DeliveryFailed || s == Netted || s == Closed
    ensures Edge(s, Netted) ==> s == Netted || s == Allocated || s == DeliveryFailed
    ensures Edge(s, Settled) ==> s == Settled || s == Netted
    ensures Edge(Closed, s) ==> s == Closed
  {
  }
}
