/** What each event does, seen by owner and instrument instead of by row. */
module Footprints {
  import opened Bytes
  import opened Status
  import Rounding
  import opened Calendar
  import opened Idempotency
  import opened Ledgers
  import opened Applying

  /** The buckets of an owner in an instrument; all zero where there is no row. */
  function BalancesOf(d: Ledger, doc: U64, inst: U32): Balances
    requires WellFormed(d)
  {
    if doc in d.accountIndex && inst in d.instrumentIndex
       && PositionKey(d.accountIndex[doc], d.instrumentIndex[inst]) in d.positionIndex then
      d.custody[d.positionIndex[PositionKey(d.accountIndex[doc], d.instrumentIndex[inst])]].b
    else NO_BALANCES
  }

  function FundsOf(d: Ledger, doc: U64): Funds
    requires WellFormed(d)
  {
    if doc in d.accountIndex then d.accounts[d.accountIndex[doc]].m else NO_FUNDS
  }

  /** The price factor of an instrument; zero until it is described. */
  function FactorOf(d: Ledger, inst: U32): nat
    requires WellFormed(d)
  {
    if inst in d.instrumentIndex then d.instruments[d.instrumentIndex[inst]].factor else 0
  }

  /** The owner and instrument of a row. */
  predicate IsRow(d: Ledger, pos: nat, doc: U64, inst: U32)
    requires WellFormed(d) && pos < |d.custody|
  {
    d.accounts[d.custody[pos].account].document == doc && d.instruments[d.custody[pos].instrument].id == inst
  }

  lemma RowView(d: Ledger, pos: nat, doc: U64, inst: U32)
    requires WellFormed(d) && pos < |d.custody| && IsRow(d, pos, doc, inst)
    ensures BalancesOf(d, doc, inst) == d.custody[pos].b
  {
  }

  lemma NoRowView(d: Ledger, doc: U64, inst: U32)
    requires WellFormed(d) && forall pos :: 0 <= pos < |d.custody| ==> !IsRow(d, pos, doc, inst)
    ensures BalancesOf(d, doc, inst) == NO_BALANCES
  {
    if doc in d.accountIndex && inst in d.instrumentIndex
       && PositionKey(d.accountIndex[doc], d.instrumentIndex[inst]) in d.positionIndex {
      assert IsRow(d, d.positionIndex[PositionKey(d.accountIndex[doc], d.instrumentIndex[inst])], doc, inst);
    }
  }

  /** Two ledgers whose rows carry the same owners and instruments, row by row, the second with rows of zeros more. */
  ghost predicate SameRows(d: Ledger, e: Ledger) {
    && |d.custody| <= |e.custody| && |d.accounts| <= |e.accounts| && |d.instruments| <= |e.instruments|
    && (forall i :: 0 <= i < |d.custody| ==> KeyOf(e.custody[i]) == KeyOf(d.custody[i]))
    && (forall i :: 0 <= i < |d.accounts| ==> e.accounts[i].document == d.accounts[i].document)
    && (forall i :: 0 <= i < |d.instruments| ==> e.instruments[i].id == d.instruments[i].id)
    && (forall i :: |d.accounts| <= i < |e.accounts| ==> e.accounts[i].m == NO_FUNDS)
    && (forall i :: |d.custody| <= i < |e.custody| ==> e.custody[i].b == NO_BALANCES)
  }

  lemma SameRowsView(d: Ledger, e: Ledger, doc: U64, inst: U32)
    requires WellFormed(d) && WellFormed(e) && SameRows(d, e)
    ensures (exists p :: 0 <= p < |d.custody| && IsRow(d, p, doc, inst) && BalancesOf(d, doc, inst) == d.custody[p].b
                         && BalancesOf(e, doc, inst) == e.custody[p].b)
            || (BalancesOf(d, doc, inst) == NO_BALANCES && BalancesOf(e, doc, inst) == NO_BALANCES
                && forall p :: 0 <= p < |d.custody| ==> !IsRow(d, p, doc, inst))
  {
    hide BalancesOf, WellFormed, IsRow;
    if p :| 0 <= p < |d.custody| && IsRow(d, p, doc, inst) {
      RowView(d, p, doc, inst);
      SameRow(d, e, p, doc, inst);
      RowView(e, p, doc, inst);
    } else {
      NoRowView(d, doc, inst);
      if q :| 0 <= q < |e.custody| && IsRow(e, q, doc, inst) {
        if q < |d.custody| {
          SameRow(d, e, q, doc, inst);
        }
        RowView(e, q, doc, inst);
      } else {
        NoRowView(e, doc, inst);
      }
    }
  }

  lemma SameRow(d: Ledger, e: Ledger, p: nat, doc: U64, inst: U32)
    requires WellFormed(d) && WellFormed(e) && SameRows(d, e) && p < |d.custody|
    ensures IsRow(d, p, doc, inst) == IsRow(e, p, doc, inst)
  {
    RowsInRange(d);
  }

  lemma ExtendsSameRows(d: Ledger, e: Ledger)
    requires Extends(d, e)
    ensures SameRows(d, e)
  {
  }

  /** Interning is invisible. */
  lemma ExtendsViews(d: Ledger, e: Ledger, doc: U64, inst: U32)
    requires WellFormed(d) && WellFormed(e) && Extends(d, e)
    ensures BalancesOf(e, doc, inst) == BalancesOf(d, doc, inst) && FundsOf(e, doc) == FundsOf(d, doc)
    ensures FactorOf(e, inst) == FactorOf(d, inst)
  {
    hide BalancesOf, IsRow, WithinCapacity;
    ExtendsSameRows(d, e);
    SameRowsView(d, e, doc, inst);
  }

  lemma SetBalancesView(d: Ledger, pos: nat, b: Balances, doc: U64, inst: U32)
    requires WellFormed(d) && pos < |d.custody|
    ensures BalancesOf(SetBalances(d, pos, b), doc, inst)
         == if IsRow(d, pos, doc, inst) then b else BalancesOf(d, doc, inst)
    ensures FundsOf(SetBalances(d, pos, b), doc) == FundsOf(d, doc)
  {
  }

  lemma SetFundsView(d: Ledger, acct: nat, m: Funds, doc: U64, inst: U32)
    requires WellFormed(d) && acct < |d.accounts|
    ensures FundsOf(SetFunds(d, acct, m), doc) == if d.accounts[acct].document == doc then m else FundsOf(d, doc)
    ensures BalancesOf(SetFunds(d, acct, m), doc, inst) == BalancesOf(d, doc, inst)
  {
  }

  // ---------------------------------------------------------------- the effect of an event, by owner

  /** Did the event reach the books? A failed anchor changes nothing; a bucket found negative comes too late. */
  predicate Mutated(e: Event, st: Err) {
    st == Ok || (st == StateCorrupt && !e.EodMarked?)
  }

  function TradeInstrument(d: Ledger, id: U64): U32
    requires WellFormed(d) && id in d.tradeIndex
  {
    RowsInRange(d);
    d.instruments[d.trades[d.tradeIndex[id]].instrument].id
  }

  /** The buckets of an owner in an instrument after an event that reached the books. */
  function BalancesAfter(d: Ledger, e: Event, doc: U64, inst: U32): Balances
    requires WellFormed(d)
  {
    var b := BalancesOf(d, doc, inst);
    match e
    case DayOpened(today, d1, d2, _) => RotateBalances(b, d.window, Window(today, d1, d2))
    case TradeExecuted(x) =>
      var slot := SlotOf(d.window, x.date);
      if x.account == doc && x.instrument == inst && slot.InSlot? then
        ExecuteBalances(b, x.side == BUY, slot.k, x.qty, x.shortFlag)
      else b
    case TradeAllocated(a) =>
      var slot := SlotOf(d.window, a.date);
      if a.from == a.to || slot.NoSlot? || a.trade !in d.tradeIndex || TradeInstrument(d, a.trade) != inst then b
      else if doc == a.from then AllocateFrom(b, a.side == BUY, slot.k, a.qty)
      else if doc == a.to then AllocateTo(b, a.side == BUY, slot.k, a.qty)
      else b
    case TradeSettled(s) =>
      if s.account == doc && s.instrument == inst then
        var r := SettleBuckets(b, FundsOf(d, doc), s, SlotOf(d.window, s.date));
        if r.Moves? then r.b else b
      else b
    case CorporateActionApplied(c) =>
      if c.account == doc && c.instrument == inst && ActionError(c) == Ok then
        var r := ActionBuckets(b, c);
        if r.Acts? then r.b else b
      else b
    case _ => b
  }

  /** The money of an owner after an event that reached the books. */
  function FundsAfter(d: Ledger, e: Event, doc: U64): Funds
    requires WellFormed(d)
  {
    var m := FundsOf(d, doc);
    match e
    case DayOpened(today, d1, d2, _) => RotateFunds(m, d.window, Window(today, d1, d2))
    case TradeExecuted(x) =>
      var slot := SlotOf(d.window, x.date);
      if x.account == doc && slot.InSlot? && FactorOf(d, x.instrument) > 0 then
        m.(pending := Plus(m.pending, slot.k, Amount(x, FactorOf(d, x.instrument))))
      else m
    case TradeAllocated(a) =>
      var slot := SlotOf(d.window, a.date);
      if a.from == a.to || slot.NoSlot? then m
      else if doc == a.from then m.(pending := Plus(m.pending, slot.k, -a.cash))
      else if doc == a.to then m.(pending := Plus(m.pending, slot.k, a.cash))
      else m
    case TradeSettled(s) =>
      if s.account == doc then
        var r := SettleBuckets(BalancesOf(d, doc, s.instrument), m, s, SlotOf(d.window, s.date));
        if r.Moves? then r.m else m
      else m
    case CorporateActionApplied(c) =>
      if c.account == doc && ActionError(c) == Ok then
        var r := ActionBuckets(BalancesOf(d, doc, c.instrument), c);
        if r.Acts? then m.(cash := m.cash + r.cash, income := m.income - c.withheld) else m
      else m
    case DividendPaid(p) => if p.account == doc then DividendFunds(m, p) else m
    case _ => m
  }

  ghost predicate Sees(d: Ledger, doc: U64, inst: U32, b: Balances, m: Funds)
    requires WellFormed(d)
  {
    BalancesOf(d, doc, inst) == b && FundsOf(d, doc) == m
  }

  /** Adding, moving or marking trades, exceptions and keys is invisible in the books. */
  lemma SameBooks(d: Ledger, e: Ledger, doc: U64, inst: U32)
    requires WellFormed(d) && WellFormed(e)
    requires e.custody == d.custody && e.accounts == d.accounts && e.instruments == d.instruments
    requires e.accountIndex == d.accountIndex && e.positionIndex == d.positionIndex
    requires e.instrumentIndex == d.instrumentIndex
    ensures BalancesOf(e, doc, inst) == BalancesOf(d, doc, inst) && FundsOf(e, doc) == FundsOf(d, doc)
    ensures FactorOf(e, inst) == FactorOf(d, inst)
  {
  }

  lemma ExecutedEffect(d: Ledger, x: Execution, doc: U64, inst: U32)
    requires WellFormed(d)
    ensures var r := ApplyTradeExecuted(d, x);
            if Mutated(TradeExecuted(x), r.st)
            then Sees(r.d, doc, inst, BalancesAfter(d, TradeExecuted(x), doc, inst),
                      FundsAfter(d, TradeExecuted(x), doc))
            else Sees(r.d, doc, inst, BalancesOf(d, doc, inst), FundsOf(d, doc))
  {
    hide WellFormed, InternAccount, InternInstrument, InternPosition, BalancesOf, FundsOf, FactorOf, WithTrade;
    hide BucketsNonNegative;
    hide Amount, ExecutionError;
    if |d.trades| < d.cap.trades && x.id !in d.tradeIndex {
      var i1 := InternAccount(d, x.account);
      if i1.Row? {
        ExtendsViews(d, i1.d, doc, inst);
        ExtendsViews(d, i1.d, doc, x.instrument);
        var i2 := InternInstrument(i1.d, x.instrument);
        if i2.Row? {
          ExtendsViews(i1.d, i2.d, doc, inst);
          ExtendsViews(i1.d, i2.d, doc, x.instrument);
          var slot := SlotOf(d.window, x.date);
          if i2.d.instruments[i2.row].factor > 0 && slot.InSlot? {
            var i3 := InternPosition(i2.d, i1.row, i2.row);
            if i3.Row? {
              ExtendsViews(i2.d, i3.d, doc, inst);
              ExtendsViews(i2.d, i3.d, doc, x.instrument);
              if ExecutionError(x, i3.d.custody[i3.row].b) == Ok {
                WithTradeEffect(i3.d, x, i1.row, i2.row, i3.row, slot.k, doc, inst);
              }
            }
          }
        }
      }
    }
  }

  /** Writing one position and one account changes what their owner sees, and nothing else. */
  lemma BothSetView(d: Ledger, acct: nat, i: nat, pos: nat, b: Balances, m: Funds, doc: U64, inst: U32)
    requires WellFormed(d) && acct < |d.accounts| && i < |d.instruments| && pos < |d.custody|
    requires KeyOf(d.custody[pos]) == PositionKey(acct, i)
    ensures |SetBalances(d, pos, b).accounts| == |d.accounts|
    ensures Sees(SetFunds(SetBalances(d, pos, b), acct, m), doc, inst,
                 if d.accounts[acct].document == doc && d.instruments[i].id == inst then b
                 else BalancesOf(d, doc, inst),
                 if d.accounts[acct].document == doc then m else FundsOf(d, doc))
    ensures forall j :: 0 <= j < |d.custody| ==>
              SetFunds(SetBalances(d, pos, b), acct, m).custody[j]
              == if j == pos then d.custody[j].(b := b) else d.custody[j]
    ensures |SetFunds(SetBalances(d, pos, b), acct, m).custody| == |d.custody|
  {
    hide BalancesOf, FundsOf, WellFormed;
    SetBalancesView(d, pos, b, doc, inst);
    SetFundsView(SetBalances(d, pos, b), acct, m, doc, inst);
  }

  lemma WithTradeEffect(d: Ledger, x: Execution, acct: nat, i: nat, pos: nat, k: nat, doc: U64, inst: U32)
    requires WellFormed(d) && acct < |d.accounts| && i < |d.instruments| && pos < |d.custody| && k < 3
    requires d.instruments[i].factor > 0 && x.id !in d.tradeIndex && |d.trades| < d.cap.trades
    requires d.accounts[acct].document == x.account && d.instruments[i].id == x.instrument
    requires KeyOf(d.custody[pos]) == PositionKey(acct, i)
    ensures FactorOf(d, x.instrument) == d.instruments[i].factor
    ensures var b, m := BalancesOf(d, doc, inst), FundsOf(d, doc);
            Sees(WithTrade(d, x, acct, i, pos, k), doc, inst,
                 if x.account == doc && x.instrument == inst then
                   ExecuteBalances(b, x.side == BUY, k, x.qty, x.shortFlag)
                 else b,
                 if x.account == doc then m.(pending := Plus(m.pending, k, Amount(x, d.instruments[i].factor))) else m)
  {
    hide BalancesOf, FundsOf, FactorOf, Amount, ExecuteBalances, WellFormed, SetFunds, SetBalances;
    Indexed(d, acct, i, pos);
    var m := d.accounts[acct].m;
    var m' := m.(pending := Plus(m.pending, k, Amount(x, d.instruments[i].factor)));
    var b := ExecuteBalances(d.custody[pos].b, x.side == BUY, k, x.qty, x.shortFlag);
    BothSetView(d, acct, i, pos, b, m', doc, inst);
    SameBooks(SetFunds(SetBalances(d, pos, b), acct, m'), WithTrade(d, x, acct, i, pos, k), doc, inst);
  }

  /** A row is what its owner sees. */
  lemma Indexed(d: Ledger, acct: nat, i: nat, pos: nat)
    requires WellFormed(d) && acct < |d.accounts| && i < |d.instruments| && pos < |d.custody|
    requires KeyOf(d.custody[pos]) == PositionKey(acct, i)
    ensures FundsOf(d, d.accounts[acct].document) == d.accounts[acct].m
    ensures FactorOf(d, d.instruments[i].id) == d.instruments[i].factor
    ensures BalancesOf(d, d.accounts[acct].document, d.instruments[i].id) == d.custody[pos].b
  {
  }

  lemma SettledEffect(d: Ledger, s: Settlement, doc: U64, inst: U32)
    requires WellFormed(d)
    ensures var r := ApplyTradeSettled(d, s);
            if Mutated(TradeSettled(s), r.st)
            then Sees(r.d, doc, inst, BalancesAfter(d, TradeSettled(s), doc, inst), FundsAfter(d, TradeSettled(s), doc))
            else Sees(r.d, doc, inst, BalancesOf(d, doc, inst), FundsOf(d, doc))
  {
    hide WellFormed, InternAccount, InternInstrument, BalancesOf, FundsOf, SettledRows, BucketsNonNegative;
    hide SettleBuckets;
    var i1 := InternAccount(d, s.account);
    if i1.Row? {
      ExtendsViews(d, i1.d, doc, inst);
      ExtendsViews(d, i1.d, s.account, s.instrument);
      var i2 := InternInstrument(i1.d, s.instrument);
      if i2.Row? {
        ExtendsViews(i1.d, i2.d, doc, inst);
        ExtendsViews(i1.d, i2.d, s.account, s.instrument);
        RowsInRange(i2.d);
        var key := PositionKey(i1.row, i2.row);
        if key in i2.d.positionIndex {
          var pos := i2.d.positionIndex[key];
          KeyNames(i2.d, key);
          Indexed(i2.d, i1.row, i2.row, pos);
          var moves := SettleBuckets(i2.d.custody[pos].b, i2.d.accounts[i1.row].m, s, SlotOf(d.window, s.date));
          if moves.Moves? {
            SettledRowsEffect(i2.d, s, i1.row, i2.row, pos, moves.b, moves.m, doc, inst);
          }
        }
      }
    }
  }

  lemma KeyNames(d: Ledger, key: PositionKey)
    requires WellFormed(d) && key in d.positionIndex
    ensures d.positionIndex[key] < |d.custody| && KeyOf(d.custody[d.positionIndex[key]]) == key
  {
  }

  lemma SettledRowsEffect(d: Ledger, s: Settlement, acct: nat, i: nat, pos: nat, b: Balances, m: Funds,
                          doc: U64, inst: U32)
    requires WellFormed(d) && acct < |d.accounts| && i < |d.instruments| && pos < |d.custody|
    requires KeyOf(d.custody[pos]) == PositionKey(acct, i)
    ensures Sees(SettledRows(d, s, acct, i, pos, b, m), doc, inst,
                 if d.accounts[acct].document == doc && d.instruments[i].id == inst then b
                 else BalancesOf(d, doc, inst),
                 if d.accounts[acct].document == doc then m else FundsOf(d, doc))
  {
    hide BalancesOf, FundsOf, WellFormed, SetFunds, SetBalances, Noted;
    BothSetView(d, acct, i, pos, b, m, doc, inst);
    var d2 := SetFunds(SetBalances(d, pos, b), acct, m);
    SameBooks(d2, SettledRows(d, s, acct, i, pos, b, m), doc, inst);
  }

  lemma ActionEffect(d: Ledger, c: Action, doc: U64, inst: U32)
    requires WellFormed(d)
    ensures var r := ApplyCorporateAction(d, c);
            if Mutated(CorporateActionApplied(c), r.st)
            then Sees(r.d, doc, inst, BalancesAfter(d, CorporateActionApplied(c), doc, inst),
                      FundsAfter(d, CorporateActionApplied(c), doc))
            else Sees(r.d, doc, inst, BalancesOf(d, doc, inst), FundsOf(d, doc))
  {
    hide WellFormed, InternAccount, InternInstrument, InternPosition, BalancesOf, FundsOf, ActedRows;
    hide BucketsNonNegative;
    hide Insert, ActionBuckets, ActionError;
    var i1 := InternAccount(d, c.account);
    if i1.Row? {
      ExtendsViews(d, i1.d, doc, inst);
      ExtendsViews(d, i1.d, c.account, c.instrument);
      var i2 := InternInstrument(i1.d, c.instrument);
      if i2.Row? {
        ExtendsViews(i1.d, i2.d, doc, inst);
        ExtendsViews(i1.d, i2.d, c.account, c.instrument);
        var i3 := InternPosition(i2.d, i1.row, i2.row);
        if i3.Row? {
          ExtendsViews(i2.d, i3.d, doc, inst);
          ExtendsViews(i2.d, i3.d, c.account, c.instrument);
          var key := AppliedKey(c.id, i1.row);
          var ins := Insert(i3.d.actions, key, TableSize(i3.d.cap.actionsPerGen));
          if ActionError(c) == Ok && ins.New? {
            var d4 := WithActions(i3.d, key, ins.after);
            SameBooks(i3.d, d4, doc, inst);
            SameBooks(i3.d, d4, c.account, c.instrument);
            Indexed(d4, i1.row, i2.row, i3.row);
            var acts := ActionBuckets(d4.custody[i3.row].b, c);
            if acts.Acts? {
              ActedRowsEffect(d4, c, i1.row, i2.row, i3.row, acts.b, acts.moved, acts.cash, doc, inst);
            }
          }
        }
      }
    }
  }

  lemma ActedRowsEffect(d: Ledger, c: Action, acct: nat, i: nat, pos: nat, b: Balances, moved: int, cash: int,
                        doc: U64, inst: U32)
    requires WellFormed(d) && acct < |d.accounts| && i < |d.instruments| && pos < |d.custody|
    requires KeyOf(d.custody[pos]) == PositionKey(acct, i)
    ensures var m := d.accounts[acct].m;
            Sees(ActedRows(d, c, acct, pos, b, moved, cash), doc, inst,
                 if d.accounts[acct].document == doc && d.instruments[i].id == inst then b
                 else BalancesOf(d, doc, inst),
                 if d.accounts[acct].document == doc then m.(cash := m.cash + cash, income := m.income - c.withheld)
                 else FundsOf(d, doc))
  {
    hide BalancesOf, FundsOf, WellFormed, SetFunds, SetBalances, Noted;
    var m := d.accounts[acct].m;
    var m' := m.(cash := m.cash + cash, income := m.income - c.withheld);
    BothSetView(d, acct, i, pos, b, m', doc, inst);
    var d2 := SetFunds(SetBalances(d, pos, b), acct, m');
    SameBooks(d2, ActedRows(d, c, acct, pos, b, moved, cash), doc, inst);
  }

  lemma AllocatedEffect(d: Ledger, a: Allocation, doc: U64, inst: U32)
    requires WellFormed(d)
    ensures var r := ApplyTradeAllocated(d, a);
            if Mutated(TradeAllocated(a), r.st)
            then Sees(r.d, doc, inst, BalancesAfter(d, TradeAllocated(a), doc, inst),
                      FundsAfter(d, TradeAllocated(a), doc))
            else Sees(r.d, doc, inst, BalancesOf(d, doc, inst), FundsOf(d, doc))
  {
    hide WellFormed, InternAccount, BalancesOf, FundsOf, AllocateRows, TradeInstrument, Extends;
    RowsInRange(d);
    if a.trade in d.tradeIndex && NextState(d.trades[d.tradeIndex[a.trade]].state, Allocate) != Absent {
      var t := d.tradeIndex[a.trade];
      var i1 := InternAccount(d, a.from);
      if i1.Row? {
        ExtendsViews(d, i1.d, doc, inst);
        var i2 := InternAccount(i1.d, a.to);
        if i2.Row? {
          ExtendsViews(i1.d, i2.d, doc, inst);
          ExtendsAgain(d, i1.d, i2.d);
          ExtendsTables(d, i2.d);
          AccountRows(i1.d, i2.d, i1.row, i2.row);
          TradeInstrumentKept(d, i2.d, a.trade);
          AllocateRowsEffect(i2.d, a, t, i1.row, i2.row, doc, inst);
        }
      }
    }
  }

  /** The allocation's effect, stated of the ledger in which both accounts have their rows. */
  lemma AllocateRowsEffect(d: Ledger, a: Allocation, t: nat, from: nat, to: nat, doc: U64, inst: U32)
    requires WellFormed(d) && a.trade in d.tradeIndex && t == d.tradeIndex[a.trade] && t < |d.trades|
    requires from < |d.accounts| && to < |d.accounts| && (from == to <==> a.from == a.to)
    requires d.accounts[from].document == a.from && d.accounts[to].document == a.to
    ensures var r := AllocateRows(d, a, t, from, to);
            if Mutated(TradeAllocated(a), r.st)
            then Sees(r.d, doc, inst, BalancesAfter(d, TradeAllocated(a), doc, inst),
                      FundsAfter(d, TradeAllocated(a), doc))
            else Sees(r.d, doc, inst, BalancesOf(d, doc, inst), FundsOf(d, doc))
  {
    hide WellFormed, BalancesOf, FundsOf, AllocateAcross, Fixed, AllocateFrom, AllocateTo;
    RowsInRange(d);
    var slot := SlotOf(d.window, a.date);
    if slot.InSlot? && a.qty == d.trades[t].qty {
      if from == to {
        FixedView(d, t, doc, inst);
      } else {
        AcrossEffect(d, a, t, from, to, slot.k, doc, inst);
      }
    }
  }

  lemma AccountRows(d: Ledger, e: Ledger, i: nat, j: nat)
    requires WellFormed(d) && WellFormed(e) && Extends(d, e) && i < |d.accounts| && j < |e.accounts|
    ensures |d.accounts| <= |e.accounts| && e.accounts[i].document == d.accounts[i].document
    ensures i == j <==> d.accounts[i].document == e.accounts[j].document
  {
  }

  lemma TradeInstrumentKept(d: Ledger, e: Ledger, id: U64)
    requires WellFormed(d) && WellFormed(e) && Extends(d, e) && id in d.tradeIndex
    ensures id in e.tradeIndex && TradeInstrument(e, id) == TradeInstrument(d, id)
  {
    RowsInRange(d);
  }

  lemma FixedView(d: Ledger, t: nat, doc: U64, inst: U32)
    requires WellFormed(d) && t < |d.trades|
    ensures BalancesOf(Fixed(d, t), doc, inst) == BalancesOf(d, doc, inst)
            && FundsOf(Fixed(d, t), doc) == FundsOf(d, doc)
  {
    hide BalancesOf, FundsOf, WellFormed;
    RowsInRange(d);
    SameBooks(d, Fixed(d, t), doc, inst);
  }

  lemma AcrossEffect(d: Ledger, a: Allocation, t: nat, from: nat, to: nat, k: nat, doc: U64, inst: U32)
    requires WellFormed(d) && t < |d.trades| && from < |d.accounts| && to < |d.accounts| && from != to && k < 3
    requires d.trades[t].instrument < |d.instruments| && a.from != a.to
    requires d.accounts[from].document == a.from && d.accounts[to].document == a.to
    ensures var r := AllocateAcross(d, a, t, from, to, k);
            var b, m := BalancesOf(d, doc, inst), FundsOf(d, doc);
            var buy, here := a.side == BUY, inst == d.instruments[d.trades[t].instrument].id;
            if r.st == Ok || r.st == StateCorrupt then
              Sees(r.d, doc, inst,
                   if here && doc == a.from then AllocateFrom(b, buy, k, a.qty)
                   else if here && doc == a.to then AllocateTo(b, buy, k, a.qty)
                   else b,
                   if doc == a.from then m.(pending := Plus(m.pending, k, -a.cash))
                   else if doc == a.to then m.(pending := Plus(m.pending, k, a.cash))
                   else m)
            else Sees(r.d, doc, inst, b, m)
  {
    hide WellFormed, InternPosition, BalancesOf, FundsOf, Moved, BucketsNonNegative, AllocationError, Fixed;
    hide AllocateFrom, AllocateTo;
    var i := d.trades[t].instrument;
    var i1 := InternPosition(d, from, i);
    if i1.Row? {
      ExtendsViews(d, i1.d, doc, inst);
      var i2 := InternPosition(i1.d, to, i);
      if i2.Row? {
        ExtendsViews(i1.d, i2.d, doc, inst);
        if AllocationError(a, i2.d.custody[i1.row].b, i2.d.custody[i2.row].b, k) == Ok {
          MovedEffect(i2.d, a, t, from, to, i1.row, i2.row, k, doc, inst);
          FixedView(Moved(i2.d, a, t, from, to, i1.row, i2.row, k), t, doc, inst);
        }
      }
    }
  }

  lemma MovedEffect(d: Ledger, a: Allocation, t: nat, from: nat, to: nat, p: nat, q: nat, k: nat, doc: U64, inst: U32)
    requires WellFormed(d) && t < |d.trades| && from < |d.accounts| && to < |d.accounts| && k < 3 && from != to
    requires p < |d.custody| && q < |d.custody| && d.trades[t].instrument < |d.instruments|
    requires KeyOf(d.custody[p]) == PositionKey(from, d.trades[t].instrument)
    requires KeyOf(d.custody[q]) == PositionKey(to, d.trades[t].instrument)
    ensures var b, m := BalancesOf(d, doc, inst), FundsOf(d, doc);
            var buy, here := a.side == BUY, inst == d.instruments[d.trades[t].instrument].id;
            Sees(Moved(d, a, t, from, to, p, q, k), doc, inst,
                 if here && doc == d.accounts[from].document then AllocateFrom(b, buy, k, a.qty)
                 else if here && doc == d.accounts[to].document then AllocateTo(b, buy, k, a.qty)
                 else b,
                 if doc == d.accounts[from].document then m.(pending := Plus(m.pending, k, -a.cash))
                 else if doc == d.accounts[to].document then m.(pending := Plus(m.pending, k, a.cash))
                 else m)
  {
    hide WellFormed, BalancesOf, FundsOf, AllocateFrom, AllocateTo, SetFunds, SetBalances;
    var i, buy := d.trades[t].instrument, a.side == BUY;
    Indexed(d, from, i, p);
    AccountsDiffer(d, from, to);
    var m := d.accounts[from].m;
    var m' := m.(pending := Plus(m.pending, k, -a.cash));
    BothSetView(d, from, i, p, AllocateFrom(d.custody[p].b, buy, k, a.qty), m', doc, inst);
    var d1 := SetFunds(SetBalances(d, p, AllocateFrom(d.custody[p].b, buy, k, a.qty)), from, m');
    LegKeeps(d, from, p, AllocateFrom(d.custody[p].b, buy, k, a.qty), m');
    Indexed(d1, to, i, q);
    var n := d1.accounts[to].m;
    var n' := n.(pending := Plus(n.pending, k, a.cash));
    BothSetView(d1, to, i, q, AllocateTo(d1.custody[q].b, buy, k, a.qty), n', doc, inst);
    var d2 := SetFunds(SetBalances(d1, q, AllocateTo(d1.custody[q].b, buy, k, a.qty)), to, n');
    SameBooks(d2, Moved(d, a, t, from, to, p, q, k), doc, inst);
  }

  lemma AccountsDiffer(d: Ledger, i: nat, j: nat)
    requires WellFormed(d) && i < |d.accounts| && j < |d.accounts| && i != j
    ensures d.accounts[i].document != d.accounts[j].document
  {
  }

  /** Writing one position and one account leaves every owner and instrument where it is. */
  lemma LegKeeps(d: Ledger, acct: nat, pos: nat, b: Balances, m: Funds)
    requires WellFormed(d) && acct < |d.accounts| && pos < |d.custody|
    ensures |SetBalances(d, pos, b).accounts| == |d.accounts|
    ensures var r := SetFunds(SetBalances(d, pos, b), acct, m);
            && |r.accounts| == |d.accounts| && |r.custody| == |d.custody|
            && r.instruments == d.instruments && r.trades == d.trades
            && (forall j :: 0 <= j < |d.accounts| ==> r.accounts[j].document == d.accounts[j].document)
            && (forall j :: 0 <= j < |d.custody| ==> KeyOf(r.custody[j]) == KeyOf(d.custody[j]))
  {
    hide WellFormed;
  }

  lemma NettedEffect(d: Ledger, account: U64, net: int, date: Date, count: nat, doc: U64, inst: U32)
    requires WellFormed(d)
    ensures Sees(ApplyBatchNetted(d, account, net, date, count).d, doc, inst, BalancesOf(d, doc, inst), FundsOf(d, doc))
  {
    hide WellFormed, InternAccount, BalancesOf, FundsOf, Extends, PushException, SetStates;
    var i1 := InternAccount(d, account);
    if i1.Row? && SlotOf(i1.d.window, date).InSlot? {
      ExtendsViews(d, i1.d, doc, inst);
      var ours := At(i1.d.accounts[i1.row].m.pending, SlotOf(i1.d.window, date).k);
      if ours != net {
        PushedBooks(i1.d, ExceptionRecord(account, ours - net, 0, date, AmountMismatch), doc, inst);
      } else {
        var counted := CountNetted(i1.d.trades, i1.row, date);
        var d2 := SetStates(i1.d, NettedTrades(i1.d.trades, i1.row, date));
        StatesBooks(i1.d, NettedTrades(i1.d.trades, i1.row, date), doc, inst);
        PushedBooks(d2, ExceptionRecord(account, counted - count, 0, date, QtyMismatch), doc, inst);
      }
    } else if i1.Row? {
      ExtendsViews(d, i1.d, doc, inst);
    }
  }

  lemma PushedBooks(d: Ledger, r: ExceptionRecord, doc: U64, inst: U32)
    requires WellFormed(d)
    ensures var e := PushException(d, r, false);
            BalancesOf(e, doc, inst) == BalancesOf(d, doc, inst) && FundsOf(e, doc) == FundsOf(d, doc)
  {
    hide WellFormed, BalancesOf, FundsOf;
    SameBooks(d, PushException(d, r, false), doc, inst);
  }

  lemma StatesBooks(d: Ledger, ts: seq<Trade>, doc: U64, inst: U32)
    requires WellFormed(d) && |ts| == |d.trades|
    requires forall i :: 0 <= i < |ts| ==> ts[i] == d.trades[i].(state := ts[i].state)
    ensures var e := SetStates(d, ts);
            BalancesOf(e, doc, inst) == BalancesOf(d, doc, inst) && FundsOf(e, doc) == FundsOf(d, doc)
  {
    hide WellFormed, BalancesOf, FundsOf;
    SameBooks(d, SetStates(d, ts), doc, inst);
  }

  lemma DividendEffect(d: Ledger, p: Dividend, doc: U64, inst: U32)
    requires WellFormed(d)
    ensures var r := ApplyDividendPaid(d, p);
            r.st != StateCorrupt &&
            Sees(r.d, doc, inst, BalancesOf(d, doc, inst),
                 if r.st == Ok then FundsAfter(d, DividendPaid(p), doc) else FundsOf(d, doc))
  {
    hide WellFormed, InternAccount, BalancesOf, FundsOf, Extends, PushException, Insert;
    var i1 := InternAccount(d, p.account);
    if i1.Row? {
      ExtendsViews(d, i1.d, doc, inst);
      var key, slots := AppliedKey(p.id, i1.row), TableSize(i1.d.cap.actionsPerGen);
      var ins := Insert(i1.d.income, key, slots);
      if ApplyDividendPaid(d, p).st == Ok {
        var d2 := WithIncome(i1.d, key, ins.after);
        SameBooks(i1.d, d2, doc, inst);
        AccountView(d2, i1.row);
        SetFundsView(d2, i1.row, DividendFunds(d2.accounts[i1.row].m, p), doc, inst);
      } else {
        RejectedDividend(d, p, doc, inst);
      }
    }
  }

  lemma AccountView(d: Ledger, acct: nat)
    requires WellFormed(d) && acct < |d.accounts|
    ensures FundsOf(d, d.accounts[acct].document) == d.accounts[acct].m
  {
  }

  lemma RejectedDividend(d: Ledger, p: Dividend, doc: U64, inst: U32)
    requires WellFormed(d) && ApplyDividendPaid(d, p).st != Ok
    ensures Sees(ApplyDividendPaid(d, p).d, doc, inst, BalancesOf(d, doc, inst), FundsOf(d, doc))
  {
    hide WellFormed, InternAccount, BalancesOf, FundsOf, Extends, Insert, PushException, Rounding.MulDiv;
    var i1 := InternAccount(d, p.account);
    if i1.Row? {
      ExtendsViews(d, i1.d, doc, inst);
      var gap := p.gross - Rounding.MulDiv(Rounding.HalfEven, p.basis, p.rate, Rounding.ONE_SHARE);
      PushedBooks(i1.d, ExceptionRecord(p.account, gap, p.instrument, p.exDate, AmountMismatch), doc, inst);
    }
  }

  lemma ClosingEffect(d: Ledger, q: Closing, doc: U64, inst: U32)
    requires WellFormed(d)
    ensures Sees(ApplyClosingPrice(d, q).d, doc, inst, BalancesOf(d, doc, inst), FundsOf(d, doc))
  {
    hide WellFormed, InternInstrument, BalancesOf, FundsOf, IsRow;
    var i1 := InternInstrument(d, q.instrument);
    if q.factor != 0 && i1.Row? {
      ExtendsViews(d, i1.d, doc, inst);
      SameRowsView(i1.d, ApplyClosingPrice(d, q).d, doc, inst);
      DescribedFunds(i1.d, ApplyClosingPrice(d, q).d, doc);
    }
  }

  lemma DescribedFunds(d: Ledger, e: Ledger, doc: U64)
    requires WellFormed(d) && WellFormed(e) && e.accounts == d.accounts && e.accountIndex == d.accountIndex
    ensures FundsOf(e, doc) == FundsOf(d, doc)
  {
  }

  lemma {:induction false} ReconciledEffect(d: Ledger, date: Date, ds: seq<Divergence>, doc: U64, inst: U32)
    requires WellFormed(d)
    ensures Sees(Reconciled(d, date, ds), doc, inst, BalancesOf(d, doc, inst), FundsOf(d, doc))
    decreases |ds|
  {
    hide WellFormed, BalancesOf, FundsOf;
    if ds != [] {
      var x := ExceptionRecord(ds[0].account, ds[0].qtyDelta, ds[0].instrument, date, QtyMismatch);
      SameBooks(d, PushException(d, x, true), doc, inst);
      ReconciledEffect(PushException(d, x, true), date, ds[1..], doc, inst);
    }
  }

  lemma DayEffect(d: Ledger, today: Date, d1: Date, d2: Date, previous: Date, doc: U64, inst: U32)
    requires WellFormed(d)
    ensures var r := ApplyDayOpened(d, today, d1, d2, previous);
            var to := Window(today, d1, d2);
            r.st != StateCorrupt &&
            if r.st == Ok
            then Sees(r.d, doc, inst, RotateBalances(BalancesOf(d, doc, inst), d.window, to),
                      RotateFunds(FundsOf(d, doc), d.window, to))
            else Sees(r.d, doc, inst, BalancesOf(d, doc, inst), FundsOf(d, doc))
  {
    hide WellFormed, BalancesOf, FundsOf, TurnDay;
    if ApplyDayOpened(d, today, d1, d2, previous).st == Ok {
      var e := TurnDay(d, today, Window(today, d1, d2), previous);
      TurnedView(d, today, Window(today, d1, d2), previous, doc, inst);
      SameBooks(e, Compacted(e), doc, inst);
    }
  }

  lemma TurnedView(d: Ledger, today: Date, to: Window, previous: Date, doc: U64, inst: U32)
    requires WellFormed(d)
    ensures Sees(TurnDay(d, today, to, previous), doc, inst, RotateBalances(BalancesOf(d, doc, inst), d.window, to),
                 RotateFunds(FundsOf(d, doc), d.window, to))
  {
    hide BalancesOf, IsRow, MaybeRotate, WithinCapacity;
    var e := TurnDay(d, today, to, previous);
    SameRowsView(d, e, doc, inst);
    NothingRotates(d.window, to);
    TurnedFunds(d, e, to, doc);
  }

  lemma NothingRotates(from: Window, to: Window)
    ensures RotateBalances(NO_BALANCES, from, to) == NO_BALANCES && RotateFunds(NO_FUNDS, from, to) == NO_FUNDS
  {
  }

  lemma TurnedFunds(d: Ledger, e: Ledger, to: Window, doc: U64)
    requires WellFormed(d) && WellFormed(e) && e.accountIndex == d.accountIndex
    requires e.accounts == RotatedAccounts(d.accounts, d.window, to)
    ensures FundsOf(e, doc) == RotateFunds(FundsOf(d, doc), d.window, to)
  {
    NothingRotates(d.window, to);
  }

  /** The whole effect of any event on the books of any owner: exactly what the event says when it reaches the
      books, and nothing at all when it is refused. */
  lemma Effect(d: Ledger, e: Event, doc: U64, inst: U32)
    requires WellFormed(d)
    ensures var r := Dispatch(d, e);
            if Mutated(e, r.st) then Sees(r.d, doc, inst, BalancesAfter(d, e, doc, inst), FundsAfter(d, e, doc))
            else Sees(r.d, doc, inst, BalancesOf(d, doc, inst), FundsOf(d, doc))
  {
    hide WellFormed, BalancesOf, FundsOf, ApplyTradeExecuted, ApplyTradeAllocated, ApplyTradeSettled;
    hide ApplyCorporateAction, ApplyBatchNetted, Reconciled, ApplyDayOpened, ApplyDividendPaid, ApplyClosingPrice;
    match e
    case DayOpened(today, d1, d2, previous) => DayEffect(d, today, d1, d2, previous, doc, inst);
    case TradeExecuted(x) => ExecutedEffect(d, x, doc, inst);
    case TradeAllocated(a) => AllocatedEffect(d, a, doc, inst);
    case BatchNetted(account, net, date, count) => NettedEffect(d, account, net, date, count, doc, inst);
    case TradeSettled(s) => SettledEffect(d, s, doc, inst);
    case CorporateActionApplied(c) => ActionEffect(d, c, doc, inst);
    case DividendPaid(p) => DividendEffect(d, p, doc, inst);
    case ClosingPriceSet(q) => ClosingEffect(d, q, doc, inst);
    case CustodyReconciled(date, ds) => ReconciledEffect(d, date, ds, doc, inst);
    case EodMarked(_, _, _) => SameBooks(d, Dispatch(d, e).d, doc, inst);
    case Unreadable(_) =>
  }
}
