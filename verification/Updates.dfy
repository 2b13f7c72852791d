/** What an event tells the outside: the one update it may stage, and the bytes of it. */
module Updates {
  import opened Bytes
  import opened Status
  import Idempotency
  import opened Ledgers
  import opened Applying
  import opened Footprints

  /** Executions, settlements and corporate actions are reported; nothing else is. */
  predicate Announced(e: Event) {
    e.TradeExecuted? || e.TradeSettled? || e.CorporateActionApplied?
  }

  function Holder(e: Event): U64
    requires Announced(e)
  {
    match e
    case TradeExecuted(x) => x.account
    case TradeSettled(s) => s.account
    case CorporateActionApplied(c) => c.account
  }

  function Paper(e: Event): U32
    requires Announced(e)
  {
    match e
    case TradeExecuted(x) => x.instrument
    case TradeSettled(s) => s.instrument
    case CorporateActionApplied(c) => c.instrument
  }

  /** The update tells what is free and the average price, as they are after the event. */
  ghost predicate Tells(u: PositionUpdate, d: Ledger, doc: U64, inst: U32)
    requires WellFormed(d)
  {
    && u.document == doc && u.instrument == inst
    && u.available == BalancesOf(d, doc, inst).available && u.avgPrice == BalancesOf(d, doc, inst).avgPrice
  }

  /** One update, of the position the event concerns, when it is accepted; otherwise silence. */
  lemma UpdateTells(d: Ledger, e: Event)
    requires WellFormed(d)
    ensures var r := Dispatch(d, e);
            if r.st == Ok && Announced(e) then |r.outs| == 1 && Tells(r.outs[0], r.d, Holder(e), Paper(e))
            else r.outs == []
  {
    hide WellFormed, Tells, ApplyTradeExecuted, ApplyTradeSettled, ApplyCorporateAction, ApplyTradeAllocated;
    hide ApplyBatchNetted, Reconciled, ApplyDayOpened, ApplyDividendPaid, ApplyClosingPrice, ApplyEodMarked;
    match e
    case TradeExecuted(x) => ExecutionTells(d, x);
    case TradeSettled(s) => SettlementTells(d, s);
    case CorporateActionApplied(c) => ActionTells(d, c);
    case TradeAllocated(a) => AllocationIsSilent(d, a);
    case _ => OthersAreSilent(d, e);
  }

  /** A row checked and told is what its owner sees. */
  lemma CheckedTells(d: Ledger, pos: nat, doc: U64, inst: U32)
    requires WellFormed(d) && pos < |d.custody| && IsRow(d, pos, doc, inst)
    ensures var r := Checked(d, pos);
            if r.st == Ok then |r.outs| == 1 && Tells(r.outs[0], r.d, doc, inst) else r.outs == []
  {
    hide WellFormed, BalancesOf, BucketsNonNegative;
    RowView(d, pos, doc, inst);
  }

  lemma ExecutionTells(d: Ledger, x: Execution)
    requires WellFormed(d)
    ensures var r := ApplyTradeExecuted(d, x);
            if r.st == Ok then |r.outs| == 1 && Tells(r.outs[0], r.d, x.account, x.instrument) else r.outs == []
  {
    hide WellFormed, InternAccount, InternInstrument, InternPosition, BalancesOf, WithTrade, Checked, ExecutionError;
    hide Extends, Tells;
    if |d.trades| < d.cap.trades && x.id !in d.tradeIndex {
      var i1 := InternAccount(d, x.account);
      if i1.Row? {
        var i2 := InternInstrument(i1.d, x.instrument);
        if i2.Row? {
          ExtendsSizes(i1.d, i2.d);
          AccountRows(i1.d, i2.d, i1.row, i1.row);
          ExtendsTables(i1.d, i2.d);
          ExtendsTables(d, i1.d);
          var slot := SlotOf(i2.d.window, x.date);
          if i2.d.instruments[i2.row].factor != 0 && slot.InSlot? {
            var i3 := InternPosition(i2.d, i1.row, i2.row);
            if i3.Row? {
              ExtendsSizes(i2.d, i3.d);
              AccountRows(i2.d, i3.d, i1.row, i1.row);
              InstrumentKept(i2.d, i3.d, i2.row);
              ExtendsTables(i2.d, i3.d);
              if ExecutionError(x, i3.d.custody[i3.row].b) == Ok {
                var e := WithTrade(i3.d, x, i1.row, i2.row, i3.row, slot.k);
                TradedRow(i3.d, x, i1.row, i2.row, i3.row, slot.k);
                CheckedTells(e, i3.row, x.account, x.instrument);
              }
            }
          }
        }
      }
    }
  }

  lemma TradedRow(d: Ledger, x: Execution, acct: nat, i: nat, pos: nat, k: nat)
    requires WellFormed(d) && acct < |d.accounts| && i < |d.instruments| && pos < |d.custody| && k < 3
    requires d.instruments[i].factor > 0 && x.id !in d.tradeIndex && |d.trades| < d.cap.trades
    requires d.accounts[acct].document == x.account && d.instruments[i].id == x.instrument
    requires KeyOf(d.custody[pos]) == PositionKey(acct, i)
    ensures IsRow(WithTrade(d, x, acct, i, pos, k), pos, x.account, x.instrument)
  {
    hide WellFormed, Amount, ExecuteBalances;
  }

  lemma SettlementTells(d: Ledger, s: Settlement)
    requires WellFormed(d)
    ensures var r := ApplyTradeSettled(d, s);
            if r.st == Ok then |r.outs| == 1 && Tells(r.outs[0], r.d, s.account, s.instrument) else r.outs == []
  {
    hide WellFormed, InternAccount, InternInstrument, BalancesOf, SettledRows, SettleBuckets, Checked, Extends, Tells;
    var i1 := InternAccount(d, s.account);
    if i1.Row? {
      var i2 := InternInstrument(i1.d, s.instrument);
      if i2.Row? {
        ExtendsSizes(i1.d, i2.d);
        AccountRows(i1.d, i2.d, i1.row, i1.row);
        RowsInRange(i2.d);
        var key := PositionKey(i1.row, i2.row);
        if key in i2.d.positionIndex {
          KeyNames(i2.d, key);
          var pos := i2.d.positionIndex[key];
          var r := SettleBuckets(i2.d.custody[pos].b, i2.d.accounts[i1.row].m, s, SlotOf(i2.d.window, s.date));
          if r.Moves? {
            SettledRow(i2.d, s, i1.row, i2.row, pos, r.b, r.m);
            CheckedTells(SettledRows(i2.d, s, i1.row, i2.row, pos, r.b, r.m), pos, s.account, s.instrument);
          }
        }
      }
    }
  }

  lemma SettledRow(d: Ledger, s: Settlement, acct: nat, i: nat, pos: nat, b: Balances, m: Funds)
    requires WellFormed(d) && acct < |d.accounts| && i < |d.instruments| && pos < |d.custody|
    requires d.accounts[acct].document == s.account && d.instruments[i].id == s.instrument
    requires KeyOf(d.custody[pos]) == PositionKey(acct, i)
    ensures IsRow(SettledRows(d, s, acct, i, pos, b, m), pos, s.account, s.instrument)
  {
    hide WellFormed, Noted, SettledTrades, SlotOf;
    assert IsRow(SetFunds(SetBalances(d, pos, b), acct, m), pos, s.account, s.instrument);
  }

  lemma ActionTells(d: Ledger, c: Action)
    requires WellFormed(d)
    ensures var r := ApplyCorporateAction(d, c);
            if r.st == Ok then |r.outs| == 1 && Tells(r.outs[0], r.d, c.account, c.instrument) else r.outs == []
  {
    hide WellFormed, InternAccount, InternInstrument, InternPosition, ActOn, Extends, Tells;
    var i1 := InternAccount(d, c.account);
    if i1.Row? {
      var i2 := InternInstrument(i1.d, c.instrument);
      if i2.Row? {
        ExtendsSizes(i1.d, i2.d);
        AccountRows(i1.d, i2.d, i1.row, i1.row);
        var i3 := InternPosition(i2.d, i1.row, i2.row);
        if i3.Row? {
          ExtendsSizes(i2.d, i3.d);
          AccountRows(i2.d, i3.d, i1.row, i1.row);
          InstrumentKept(i2.d, i3.d, i2.row);
          ActTells(i3.d, c, i1.row, i2.row, i3.row);
        }
      }
    }
  }

  lemma ActTells(d: Ledger, c: Action, acct: nat, i: nat, pos: nat)
    requires WellFormed(d) && acct < |d.accounts| && i < |d.instruments| && pos < |d.custody|
    requires d.accounts[acct].document == c.account && d.instruments[i].id == c.instrument
    requires KeyOf(d.custody[pos]) == PositionKey(acct, i)
    ensures var r := ActOn(d, c, acct, pos);
            if r.st == Ok then |r.outs| == 1 && Tells(r.outs[0], r.d, c.account, c.instrument) else r.outs == []
  {
    hide WellFormed, ActionBuckets, ActionError, ActedRows, Checked, Tells, Idempotency.Insert;
    if ActionError(c) == Ok {
      var ins := Idempotency.Insert(d.actions, Idempotency.AppliedKey(c.id, acct),
                                    Idempotency.TableSize(d.cap.actionsPerGen));
      if ins.New? {
        var d1 := WithActions(d, Idempotency.AppliedKey(c.id, acct), ins.after);
        var r := ActionBuckets(d1.custody[pos].b, c);
        if r.Acts? {
          ActedRow(d1, c, acct, i, pos, r.b, r.moved, r.cash);
          CheckedTells(ActedRows(d1, c, acct, pos, r.b, r.moved, r.cash), pos, c.account, c.instrument);
        }
      }
    }
  }

  lemma ActedRow(d: Ledger, c: Action, acct: nat, i: nat, pos: nat, b: Balances, moved: int, cash: int)
    requires WellFormed(d) && acct < |d.accounts| && i < |d.instruments| && pos < |d.custody|
    requires d.accounts[acct].document == c.account && d.instruments[i].id == c.instrument
    requires KeyOf(d.custody[pos]) == PositionKey(acct, i)
    ensures IsRow(ActedRows(d, c, acct, pos, b, moved, cash), pos, c.account, c.instrument)
  {
    hide WellFormed, Noted;
  }

  lemma AllocationIsSilent(d: Ledger, a: Allocation)
    requires WellFormed(d)
    ensures ApplyTradeAllocated(d, a).outs == []
  {
    hide WellFormed, InternAccount, AllocateRows, Extends;
    RowsInRange(d);
    if a.trade in d.tradeIndex {
      var i1 := InternAccount(d, a.from);
      if i1.Row? {
        ExtendsTables(d, i1.d);
        var i2 := InternAccount(i1.d, a.to);
        if i2.Row? {
          ExtendsTables(i1.d, i2.d);
          ExtendsSizes(i1.d, i2.d);
          RowsAreSilent(i2.d, a, d.tradeIndex[a.trade], i1.row, i2.row);
        }
      }
    }
  }

  lemma RowsAreSilent(d: Ledger, a: Allocation, t: nat, from: nat, to: nat)
    requires WellFormed(d) && t < |d.trades| && from < |d.accounts| && to < |d.accounts|
    ensures AllocateRows(d, a, t, from, to).outs == []
  {
    hide WellFormed, AllocateAcross, Fixed;
    RowsInRange(d);
    var slot := SlotOf(d.window, a.date);
    if slot.InSlot? && from != to {
      AcrossIsSilent(d, a, t, from, to, slot.k);
    }
  }

  lemma AcrossIsSilent(d: Ledger, a: Allocation, t: nat, from: nat, to: nat, k: nat)
    requires WellFormed(d) && t < |d.trades| && from < |d.accounts| && to < |d.accounts| && from != to && k < 3
    requires d.trades[t].instrument < |d.instruments|
    ensures AllocateAcross(d, a, t, from, to, k).outs == []
  {
    hide WellFormed, InternPosition, Moved, Fixed, BucketsNonNegative, AllocationError;
  }

  lemma OthersAreSilent(d: Ledger, e: Event)
    requires WellFormed(d) && !Announced(e) && !e.TradeAllocated?
    ensures Dispatch(d, e).outs == []
  {
    hide WellFormed, InternAccount, InternInstrument, PushException, Compacted, TurnDay, Reconciled, CountNetted;
    hide NettedTrades, CustodySum, CashSum, Idempotency.Insert;
  }

  // ---------------------------------------------------------------- its bytes

  /** The 32 bytes of a position update. */
  function UpdateBytes(u: PositionUpdate): (s: seq<Byte>)
    ensures |s| == 32
  {
    Le(8, u.document) + Le(8, Wrap64(u.available)) + Le(8, Wrap64(u.avgPrice)) + Le(4, u.instrument) + Zeros(4)
  }

  /** Little endian: the owner, what is free, the average price, the instrument, and four bytes of padding. The figures
      are 64-bit numbers in two's complement. */
  ghost predicate Reads(s: seq<Byte>, doc: U64, available: int, price: int, inst: U32) {
    && |s| == 32 && FromLe(s[0..8]) == doc && FromLe(s[24..28]) == inst && AllZero(s[28..32])
    && FromLe(s[8..16]) == available % 0x1_0000_0000_0000_0000
    && FromLe(s[16..24]) == price % 0x1_0000_0000_0000_0000
  }

  lemma UpdateReads(u: PositionUpdate)
    ensures Reads(UpdateBytes(u), u.document, u.available, u.avgPrice, u.instrument)
  {
    Widths();
    LeRoundTrip(8, u.document);
    LeRoundTrip(8, Wrap64(u.available));
    LeRoundTrip(8, Wrap64(u.avgPrice));
    LeRoundTrip(4, u.instrument);
    hide Le, FromLe, Wrap64;
    UpdateParts(Le(8, u.document), Le(8, Wrap64(u.available)), Le(8, Wrap64(u.avgPrice)), Le(4, u.instrument));
  }

  lemma UpdateParts(a: seq<Byte>, b: seq<Byte>, c: seq<Byte>, i: seq<Byte>)
    requires |a| == |b| == |c| == 8 && |i| == 4
    ensures var s := a + b + c + i + Zeros(4);
            s[0..8] == a && s[8..16] == b && s[16..24] == c && s[24..28] == i && s[28..32] == Zeros(4)
  {
    var s := a + b + c + i + Zeros(4);
    assert s[0..8] == a && s[8..16] == b && s[16..24] == c && s[24..28] == i && s[28..32] == Zeros(4);
  }
}
