/** The state of one partition, changed in place by each event. */
module PartitionStates {
  import opened Bytes
  import opened Status
  import Rounding
  import opened Calendar
  import opened Idempotency
  import opened Ledgers
  import opened Applying
  import opened TradeTables

  datatype Found = Here(row: nat) | NoRoom

  class PartitionState {
    const cap: Capacity
    const table: TradeTable
    var custody: seq<Position>
    var accounts: seq<Account>
    var instruments: seq<Instrument>
    var accountIndex: map<U64, nat>
    var positionIndex: map<PositionKey, nat>
    var instrumentIndex: map<U32, nat>
    var actions: TwoGen
    var income: TwoGen
    var exceptions: seq<ExceptionRecord>
    var exceptionCount: nat
    var exceptionDropped: nat
    var diverged: bool
    var window: Window
    var businessDate: Date
    var prevBusinessDate: Date
    var appliedLsn: nat

    function View(): Ledger
      reads this, table
    {
      Ledger(custody, accounts, instruments, table.rows, accountIndex, positionIndex, instrumentIndex, table.index,
             actions, income, exceptions, exceptionCount, exceptionDropped, diverged, window, businessDate,
             prevBusinessDate, appliedLsn, cap)
    }

    ghost predicate Valid()
      reads this, table
    {
      WellFormed(View()) && table.Valid() && |table.first| == |accounts| && cap.trades + 1 < NIL
    }

    /** All of that but the lists, of which none fit. */
    ghost predicate Astray()
      reads this, table
    {
      WellFormed(View()) && table.Broken() && |table.first| == |accounts| && cap.trades + 1 < NIL
    }

    constructor (cap: Capacity)
      requires cap.trades + 1 < NIL
      ensures Valid() && fresh(table) && View() == NewLedger(cap)
    {
      this.cap := cap;
      table := new TradeTable();
      custody, accounts, instruments := [], [], [];
      accountIndex, positionIndex, instrumentIndex := map[], map[], map[];
      actions, income := Empty(), Empty();
      exceptions, exceptionCount, exceptionDropped, diverged := [], 0, 0, false;
      window, businessDate, prevBusinessDate, appliedLsn := Window(0, 0, 0), 0, 0, 0;
    }

    // ---------------------------------------------------------------- interning

    method InternAcct(doc: U64) returns (r: Found)
      requires Valid()
      modifies this, table
      ensures Valid()
      ensures match InternAccount(old(View()), doc)
              case TableFull => r == NoRoom && View() == old(View())
              case Row(d, row) => r == Here(row) && View() == d
    {
      hide WellFormed;
      ghost var done := InternAccount(View(), doc);
      if |accounts| >= cap.accounts {
        return NoRoom;
      }
      if doc in accountIndex {
        return Here(accountIndex[doc]);
      }
      var row := |accounts|;
      accountIndex := accountIndex[doc := row];
      accounts := accounts + [Account(doc, NO_FUNDS)];
      table.AddAccount();
      assert View() == done.d;
      return Here(row);
    }

    method InternInst(id: U32) returns (r: Found)
      requires Valid()
      modifies this
      ensures Valid()
      ensures match InternInstrument(old(View()), id)
              case TableFull => r == NoRoom && View() == old(View())
              case Row(d, row) => r == Here(row) && View() == d
    {
      hide WellFormed;
      ghost var done := InternInstrument(View(), id);
      if |instruments| >= cap.instruments {
        return NoRoom;
      }
      if id in instrumentIndex {
        return Here(instrumentIndex[id]);
      }
      var row := |instruments|;
      instrumentIndex := instrumentIndex[id := row];
      instruments := instruments + [Instrument(id, Zeros(12), Zeros(12), 0, 0, 0, 0, 0, 0)];
      assert View() == done.d;
      return Here(row);
    }

    method InternPos(acct: nat, inst: nat) returns (r: Found)
      requires Valid() && acct < |accounts| && inst < |instruments|
      modifies this
      ensures Valid()
      ensures match InternPosition(old(View()), acct, inst)
              case TableFull => r == NoRoom && View() == old(View())
              case Row(d, row) => r == Here(row) && View() == d
    {
      hide WellFormed;
      ghost var done := InternPosition(View(), acct, inst);
      var key := PositionKey(acct, inst);
      if |custody| >= cap.positions {
        return NoRoom;
      }
      if key in positionIndex {
        return Here(positionIndex[key]);
      }
      var row := |custody|;
      positionIndex := positionIndex[key := row];
      custody := custody + [Position(acct, inst, NO_BALANCES)];
      assert View() == done.d;
      return Here(row);
    }

    method Push(r: ExceptionRecord, mark: bool)
      requires Valid()
      modifies this
      ensures Valid() && View() == PushException(old(View()), r, mark)
    {
      hide WellFormed, RingSlot, Lists, TradesIndexed;
      ExceptionsSized(View());
      if cap.exceptions == 0 {
        return;
      }
      ghost var d := PushException(View(), r, mark);
      if exceptionCount >= cap.exceptions {
        Record(exceptions[RingSlot(exceptionCount, cap.exceptions) := r], exceptionDropped + 1, mark, d);
      } else {
        Record(exceptions + [r], exceptionDropped, mark, d);
      }
    }

    method Record(queue: seq<ExceptionRecord>, dropped: nat, mark: bool, ghost d: Ledger)
      requires Valid() && WellFormed(d)
      requires d == View().(exceptions := queue, exceptionDropped := dropped, exceptionCount := exceptionCount + 1,
                            diverged := diverged || mark)
      modifies `exceptions, `exceptionDropped, `exceptionCount, `diverged
      ensures Valid() && View() == d
    {
      hide WellFormed, Lists, TradesIndexed;
      exceptions, exceptionDropped, exceptionCount := queue, dropped, exceptionCount + 1;
      diverged := diverged || mark;
      assert View() == d;
    }

    // ---------------------------------------------------------------- the day turns

    /** The slots of one row into the new window, one after the other. */
    method TurnSlots(t: Three, to: Window) returns (r: Turned)
      ensures r == Turn(t, window, to)
    {
      r := Turned(NOTHING, 0);
      var k := 0;
      while k < 3
        invariant 0 <= k <= 3
        invariant r == if k == 0 then Turned(NOTHING, 0)
                       else if k == 1 then TurnOne(Turned(NOTHING, 0), t.d0, SlotOf(to, window.d0))
                       else if k == 2 then
                         TurnOne(TurnOne(Turned(NOTHING, 0), t.d0, SlotOf(to, window.d0)), t.d1, SlotOf(to, window.d1))
                       else Turn(t, window, to)
      {
        var x := Ledgers.At(t, k);
        match SlotOf(to, DateAt(window, k)) {
          case NoSlot => r := r.(out := r.out + x);
          case InSlot(j) => r := r.(kept := Plus(r.kept, j, x));
        }
        k := k + 1;
      }
    }

    /** Every position and account, row by row; a row with nothing pending is left as it is. */
    method RotateRows(to: Window)
      modifies `custody, `accounts
      ensures custody == RotatedCustody(old(custody), window, to)
              && accounts == RotatedAccounts(old(accounts), window, to)
    {
      hide Turn;
      var i := 0;
      while i < |custody|
        invariant 0 <= i <= |custody| == |old(custody)| && accounts == old(accounts)
        invariant forall j :: 0 <= j < |custody| ==>
                    custody[j] == if j < i then old(custody)[j].(b := RotateBalances(old(custody)[j].b, window, to))
                                  else old(custody)[j]
      {
        var b := custody[i].b;
        if b.pendingBuy != NOTHING || b.pendingSell != NOTHING {
          var buys := TurnSlots(b.pendingBuy, to);
          var sells := TurnSlots(b.pendingSell, to);
          custody := custody[i := custody[i].(b := b.(
            pendingBuy := buys.kept, pendingSell := sells.kept,
            overdueBuy := b.overdueBuy + buys.out, overdueSell := b.overdueSell + sells.out))];
        } else {
          NothingTurns(window, to);
        }
        i := i + 1;
      }
      i := 0;
      while i < |accounts|
        invariant 0 <= i <= |accounts| == |old(accounts)| && custody == RotatedCustody(old(custody), window, to)
        invariant forall j :: 0 <= j < |accounts| ==>
                    accounts[j] == if j < i then old(accounts)[j].(m := RotateFunds(old(accounts)[j].m, window, to))
                                   else old(accounts)[j]
      {
        var m := accounts[i].m;
        if m.pending != NOTHING {
          var t := TurnSlots(m.pending, to);
          accounts := accounts[i := accounts[i].(m := m.(pending := t.kept, overdue := m.overdue + t.out))];
        } else {
          NothingTurns(window, to);
        }
        i := i + 1;
      }
    }

    method OpenDay(today: Date, d1: Date, d2: Date, previous: Date) returns (st: Err)
      requires Valid()
      modifies this, table
      ensures Valid()
      ensures var r := ApplyDayOpened(old(View()), today, d1, d2, previous); View() == r.d && st == r.st
    {
      hide WellFormed, TurnDay, Compacted;
      if today == 0 {
        return InvalidArgument;
      }
      if businessDate != 0 && today <= businessDate {
        return InvalidTransition;
      }
      BeginDay(today, Window(today, d1, d2), previous);
      CloseTrades();
      return Ok;
    }

    method BeginDay(today: Date, to: Window, previous: Date)
      requires Valid()
      modifies this
      ensures Valid() && View() == TurnDay(old(View()), today, to, previous)
    {
      hide WellFormed, MaybeRotate, RotatedCustody, RotatedAccounts;
      ghost var d := TurnDay(View(), today, to, previous);
      RotateRows(to);
      window, businessDate, prevBusinessDate := to, today, previous;
      actions := MaybeRotate(actions, today, cap.windowDays);
      income := MaybeRotate(income, today, cap.windowDays);
      SameLength(d, old(accounts), to);
      assert View() == d;
    }

    method CloseTrades()
      requires Valid()
      modifies table
      ensures Valid() && View() == Compacted(old(View()))
    {
      hide WellFormed, TradesIndexed, Surviving, Reindexed, Lists;
      ghost var d := Compacted(View());
      var _ := table.Compact(window);
      SameIndex(table.rows, table.index, Reindexed(table.rows));
      assert View() == d;
    }

    // ---------------------------------------------------------------- writing a row

    method WriteBalances(pos: nat, b: Balances)
      requires Valid() && pos < |custody|
      modifies `custody
      ensures Valid() && View() == SetBalances(old(View()), pos, b)
    {
      hide WellFormed;
      ghost var d := SetBalances(View(), pos, b);
      custody := custody[pos := custody[pos].(b := b)];
      assert View() == d;
    }

    method WriteFunds(acct: nat, m: Funds)
      requires Valid() && acct < |accounts|
      modifies `accounts
      ensures Valid() && View() == SetFunds(old(View()), acct, m)
    {
      hide WellFormed;
      ghost var d := SetFunds(View(), acct, m);
      accounts := accounts[acct := accounts[acct].(m := m)];
      assert View() == d;
    }

    // ---------------------------------------------------------------- trades

    /** The last check of a mutating event. */
    method Check(pos: nat) returns (st: Err, outs: seq<PositionUpdate>)
      requires Valid() && pos < |custody|
      ensures Checked(View(), pos) == Applied(View(), st, outs)
    {
      RowsInRange(View());
      hide WellFormed;
      var p := custody[pos];
      if !BucketsNonNegative(p.b) {
        return StateCorrupt, [];
      }
      var owner, what := accounts[p.account].document, instruments[p.instrument].id;
      return Ok, [PositionUpdate(owner, p.b.available, p.b.avgPrice, what)];
    }

    method Execute(x: Execution) returns (st: Err, outs: seq<PositionUpdate>)
      requires Valid()
      modifies this, table
      ensures Valid() && ApplyTradeExecuted(old(View()), x) == Applied(View(), st, outs)
    {
      hide WellFormed, InternAccount, InternInstrument, InternPosition, WithTrade, Checked, ExecutionError, Lists;
      if |table.rows| >= cap.trades {
        return ArenaExhausted, [];
      }
      if x.id in table.index {
        return AlreadyApplied, [];
      }
      var acct := InternAcct(x.account);
      if acct == NoRoom {
        return ArenaExhausted, [];
      }
      var inst := InternInst(x.instrument);
      if inst == NoRoom {
        return ArenaExhausted, [];
      }
      if instruments[inst.row].factor == 0 {
        return InstrumentNotDescribed, [];
      }
      var slot := SlotOf(window, x.date);
      if slot == NoSlot {
        return OutsideSettlementWindow, [];
      }
      var pos := InternPos(acct.row, inst.row);
      if pos == NoRoom {
        return ArenaExhausted, [];
      }
      var why := ExecutionError(x, custody[pos.row].b);
      if why != Ok {
        return why, [];
      }
      Strike(x, acct.row, inst.row, pos.row, slot.k);
      st, outs := Check(pos.row);
    }

    /** Buckets, money, and the trade itself. */
    method Strike(x: Execution, acct: nat, inst: nat, pos: nat, k: nat)
      requires Valid() && acct < |accounts| && inst < |instruments| && pos < |custody| && k < 3
      requires instruments[inst].factor > 0 && x.id !in table.index && |table.rows| < cap.trades
      modifies this, table
      ensures Valid() && View() == WithTrade(old(View()), x, acct, inst, pos, k)
    {
      hide WellFormed, Lists, Amount, SetBalances, SetFunds, AddTrade;
      var q, b := x.qty, custody[pos].b;
      var amount := Amount(x, instruments[inst].factor);
      if x.side == BUY {
        WriteBalances(pos, b.(pendingBuy := Plus(b.pendingBuy, k, q)));
      } else {
        WriteBalances(pos, b.(available := b.available - q, pendingSell := Plus(b.pendingSell, k, q),
                              shortAllowed := b.shortAllowed || x.shortFlag));
      }
      var m := accounts[acct].m;
      WriteFunds(acct, m.(pending := Plus(m.pending, k, amount)));
      AppendTrade(Trade(x.id, x.note, acct, inst, q, x.price, amount, x.date, x.side,
                        NextState(Absent, Trigger.Execute)));
    }

    method AppendTrade(t: Trade)
      requires Valid() && t.id !in table.index && |table.rows| < cap.trades
      requires t.account < |accounts| && t.instrument < |instruments|
      modifies table
      ensures Valid() && View() == AddTrade(old(View()), t)
    {
      hide WellFormed, Lists;
      ghost var d := AddTrade(View(), t);
      table.Push(t);
      assert View() == d;
    }

    /** The trade's holder is fixed. */
    method Fix(t: nat)
      requires (Valid() || Astray()) && t < |table.rows|
      modifies table
      ensures View() == Fixed(old(View()), t)
      ensures (old(Valid()) ==> Valid()) && (old(Astray()) ==> Astray())
    {
      hide WellFormed, Lists, TradesIndexed, Advanced;
      ghost var d := Fixed(View(), t);
      table.Advance(t, Trigger.Allocate);
      assert View() == d;
    }

    /** An allocation, whoever gives: the ledger is always what the specification says, and the lists stay lists unless
        the trade went out of the hands of one who did not hold it. */
    method Allocate(a: Allocation) returns (st: Err, outs: seq<PositionUpdate>)
      requires Valid()
      modifies this, table
      ensures ApplyTradeAllocated(old(View()), a) == Applied(View(), st, outs)
      ensures if StrangerGives(old(View()), a) && (st == Ok || st == StateCorrupt) then Astray() else Valid()
    {
      hide WellFormed, InternAccount, AllocateRows, StrangerGives, Lists, TradesIndexed, Extends, TradeTable.Broken;
      outs := [];
      TradeIn(View(), a.trade);
      if a.trade !in table.index {
        return NotFound, [];
      }
      var t := table.index[a.trade];
      if NextState(table.rows[t].state, Trigger.Allocate) == Absent {
        return InvalidTransition, [];
      }
      ghost var d := View();
      var from := InternAcct(a.from);
      ghost var d1 := View();
      var to := InternAcct(a.to);
      if from == NoRoom || to == NoRoom {
        return ArenaExhausted, [];
      }
      HolderKept(d, d1, View(), a, from.row, to.row);
      st, outs := AllocateBetween(a, t, from.row, to.row);
    }

    method AllocateBetween(a: Allocation, t: nat, from: nat, to: nat) returns (st: Err, outs: seq<PositionUpdate>)
      requires Valid() && t < |table.rows| && from < |accounts| && to < |accounts|
      modifies this, table
      ensures AllocateRows(old(View()), a, t, from, to) == Applied(View(), st, outs)
      ensures if from != to && old(table.rows)[t].account != from && (st == Ok || st == StateCorrupt) then Astray()
              else Valid()
    {
      RowsInRange(View());
      hide WellFormed, AllocateAcross, Fixed, Lists, TradeTable.Broken;
      outs := [];
      var slot := SlotOf(window, a.date);
      if slot == NoSlot {
        return OutsideSettlementWindow, [];
      }
      if a.qty != table.rows[t].qty {
        return QtyMismatch, [];
      }
      if from == to {
        Fix(t);
        return Ok, [];
      }
      st := MoveAcross(a, t, from, to, slot.k);
    }

    method MoveAcross(a: Allocation, t: nat, from: nat, to: nat, k: nat) returns (st: Err)
      requires Valid() && t < |table.rows| && from < |accounts| && to < |accounts| && from != to && k < 3
      requires table.rows[t].instrument < |instruments|
      modifies this, table
      ensures AllocateAcross(old(View()), a, t, from, to, k) == Applied(View(), st, [])
      ensures if old(table.rows)[t].account != from && (st == Ok || st == StateCorrupt) then Astray() else Valid()
    {
      hide WellFormed, InternPosition, Moved, Fixed, AllocationError, BucketsNonNegative, Lists, TradeTable.Broken;
      var inst := table.rows[t].instrument;
      var p := InternPos(from, inst);
      var q := InternPos(to, inst);
      if p == NoRoom || q == NoRoom {
        return ArenaExhausted;
      }
      var why := AllocationError(a, custody[p.row].b, custody[q.row].b, k);
      if why != Ok {
        ErrorIsNot(a, custody[p.row].b, custody[q.row].b, k);
        return why;
      }
      Carry(a, t, from, to, p.row, q.row, k);
      if !BucketsNonNegative(custody[p.row].b) || !BucketsNonNegative(custody[q.row].b) {
        return StateCorrupt;
      }
      Fix(t);
      return Ok;
    }

    /** Buckets and money move, and the trade changes lists. */
    method Carry(a: Allocation, t: nat, from: nat, to: nat, p: nat, q: nat, k: nat)
      requires Valid() && t < |table.rows| && from < |accounts| && to < |accounts| && k < 3 && from != to
      requires p < |custody| && q < |custody| && table.rows[t].instrument < |instruments|
      modifies this, table
      ensures View() == Moved(old(View()), a, t, from, to, p, q, k)
      ensures if old(table.rows)[t].account == from then Valid() else Astray()
    {
      hide WellFormed, Lists, SetBalances, SetFunds, SetTrade, AllocateFrom, AllocateTo, TradeTable.Broken;
      var buy := a.side == BUY;
      var m := accounts[from].m;
      WriteBalances(p, AllocateFrom(custody[p].b, buy, k, a.qty));
      SizesKept(old(View()), p, AllocateFrom(old(custody)[p].b, buy, k, a.qty));
      WriteFunds(from, m.(pending := Plus(m.pending, k, -a.cash)));
      var n := accounts[to].m;
      WriteBalances(q, AllocateTo(custody[q].b, buy, k, a.qty));
      WriteFunds(to, n.(pending := Plus(n.pending, k, a.cash)));
      HandOver(t, from, to);
    }

    method HandOver(t: nat, from: nat, to: nat)
      requires Valid() && t < |table.rows| && from < |accounts| && to < |accounts| && from != to
      requires table.rows[t].instrument < |instruments|
      modifies table
      ensures View() == SetTrade(old(View()), t, old(table.rows)[t].(account := to))
      ensures if old(table.rows)[t].account == from then Valid() else Astray()
    {
      hide WellFormed, Lists, TradeTable.Broken;
      ghost var d := SetTrade(View(), t, table.rows[t].(account := to));
      table.Move(t, from, to);
      assert View() == d;
    }

    method Net(account: U64, net: int, date: Date, count: nat) returns (st: Err, outs: seq<PositionUpdate>)
      requires Valid()
      modifies this, table
      ensures Valid() && ApplyBatchNetted(old(View()), account, net, date, count) == Applied(View(), st, outs)
    {
      hide WellFormed, InternAccount, PushException, SetStates, Lists;
      outs := [];
      var acct := InternAcct(account);
      if acct == NoRoom {
        return ArenaExhausted, [];
      }
      var slot := SlotOf(window, date);
      if slot == NoSlot {
        return OutsideSettlementWindow, [];
      }
      var ours := Ledgers.At(accounts[acct.row].m.pending, slot.k);
      if ours != net {
        Push(ExceptionRecord(account, ours - net, 0, date, AmountMismatch), false);
        return AmountMismatch, [];
      }
      var counted := NetTrades(acct.row, date);
      if count != 0 && counted != count {
        Push(ExceptionRecord(account, counted - count, 0, date, QtyMismatch), false);
      }
      return Ok, [];
    }

    method NetTrades(acct: nat, date: Date) returns (count: nat)
      requires Valid() && acct < |accounts|
      modifies table
      ensures Valid() && View() == SetStates(old(View()), NettedTrades(old(table.rows), acct, date))
      ensures count == CountNetted(old(table.rows), acct, date)
    {
      hide WellFormed, Lists, TradesIndexed;
      ghost var d := SetStates(View(), NettedTrades(table.rows, acct, date));
      count := table.NetAll(acct, date);
      assert View() == d;
    }

    method SettleTrades(acct: nat, inst: nat, date: Date, side: nat, trigger: Trigger)
      requires Valid() && acct < |accounts|
      modifies table
      ensures Valid()
              && View() == SetStates(old(View()), SettledTrades(old(table.rows), acct, inst, date, side, trigger))
    {
      hide WellFormed, Lists, TradesIndexed;
      ghost var d := SetStates(View(), SettledTrades(table.rows, acct, inst, date, side, trigger));
      table.SettleAll(acct, inst, date, side, trigger);
      assert View() == d;
    }

    method SettleTrade(s: Settlement) returns (st: Err, outs: seq<PositionUpdate>)
      requires Valid()
      modifies this, table
      ensures Valid() && ApplyTradeSettled(old(View()), s) == Applied(View(), st, outs)
    {
      hide WellFormed, InternAccount, InternInstrument, SettledRows, SettleBuckets, Checked, Lists;
      var acct := InternAcct(s.account);
      if acct == NoRoom {
        return ArenaExhausted, [];
      }
      var inst := InternInst(s.instrument);
      if inst == NoRoom {
        return ArenaExhausted, [];
      }
      RowsInRange(View());
      var key := PositionKey(acct.row, inst.row);
      if key !in positionIndex {
        return NotFound, [];
      }
      var pos := positionIndex[key];
      var r := SettleBuckets(custody[pos].b, accounts[acct.row].m, s, SlotOf(window, s.date));
      if r.Refuses? {
        return r.err, [];
      }
      Deliver(s, acct.row, inst.row, pos, r.b, r.m);
      st, outs := Check(pos);
    }

    method Deliver(s: Settlement, acct: nat, inst: nat, pos: nat, b: Balances, m: Funds)
      requires Valid() && acct < |accounts| && pos < |custody|
      modifies this, table
      ensures Valid() && View() == SettledRows(old(View()), s, acct, inst, pos, b, m)
    {
      hide WellFormed, Lists, SetBalances, SetFunds, SetStates, PushException;
      WriteBalances(pos, b);
      WriteFunds(acct, m);
      if s.outcome == DeliveryFailure {
        Push(ExceptionRecord(s.account, s.qty, s.instrument, s.date, QtyMismatch), false);
      }
      SettleTrades(acct, inst, s.date, s.side, TriggerOf(s.outcome));
    }

    // ---------------------------------------------------------------- actions, income, prices, anchors

    method Act(c: Action) returns (st: Err, outs: seq<PositionUpdate>)
      requires Valid()
      modifies this, table
      ensures Valid() && ApplyCorporateAction(old(View()), c) == Applied(View(), st, outs)
    {
      hide WellFormed, InternAccount, InternInstrument, InternPosition, ActedRows, ActionBuckets, Checked;
      hide Lists, Insert;
      hide ActionError, Extends, TradesIndexed;
      var acct := InternAcct(c.account);
      if acct == NoRoom {
        return ArenaExhausted, [];
      }
      ghost var d1 := View();
      var inst := InternInst(c.instrument);
      if inst == NoRoom {
        return ArenaExhausted, [];
      }
      ghost var d2 := View();
      RowsStay(d1, d2);
      var pos := InternPos(acct.row, inst.row);
      if pos == NoRoom {
        return ArenaExhausted, [];
      }
      RowsStay(d2, View());
      var why := ActionError(c);
      if why != Ok {
        return why, [];
      }
      var ins := Insert(actions, AppliedKey(c.id, acct.row), TableSize(cap.actionsPerGen));
      match ins {
        case Full => return ArenaExhausted, [];
        case Duplicate => return AlreadyApplied, [];
        case New(after) => Remember(AppliedKey(c.id, acct.row), after);
      }
      var r := ActionBuckets(custody[pos.row].b, c);
      if r.Denies? {
        return r.err, [];
      }
      Enact(c, acct.row, pos.row, r.b, r.moved, r.cash);
      st, outs := Check(pos.row);
    }

    method Remember(k: AppliedKey, after: TwoGen)
      requires Valid() && Insert(actions, k, TableSize(cap.actionsPerGen)) == New(after)
      modifies `actions
      ensures Valid() && View() == WithActions(old(View()), k, after)
    {
      hide WellFormed, Lists, TradesIndexed, Insert;
      ghost var d := WithActions(View(), k, after);
      actions := after;
      assert View() == d;
    }

    method Enact(c: Action, acct: nat, pos: nat, b: Balances, moved: int, cash: int)
      requires Valid() && acct < |accounts| && pos < |custody|
      modifies this
      ensures Valid() && View() == ActedRows(old(View()), c, acct, pos, b, moved, cash)
    {
      hide WellFormed, Lists, SetBalances, SetFunds, PushException;
      var m := accounts[acct].m;
      WriteBalances(pos, b);
      WriteFunds(acct, m.(cash := m.cash + cash, income := m.income - c.withheld));
      if c.verify && moved != c.qtyDelta {
        Push(ExceptionRecord(c.account, moved - c.qtyDelta, c.instrument, c.exDate, QtyMismatch), false);
      }
    }

    method Pay(p: Dividend) returns (st: Err, outs: seq<PositionUpdate>)
      requires Valid()
      modifies this, table
      ensures Valid() && ApplyDividendPaid(old(View()), p) == Applied(View(), st, outs)
    {
      hide WellFormed, InternAccount, PushException, Insert, Rounding.MulDiv, SetFunds, Lists, TradesIndexed;
      outs := [];
      var acct := InternAcct(p.account);
      if acct == NoRoom {
        return ArenaExhausted, [];
      }
      if p.gross - p.withheld != p.net {
        return AmountMismatch, [];
      }
      if !Within(p.basis, MAX_QTY) || !Within(p.rate, MAX_MONEY) {
        return Overflow, [];
      }
      var gap := p.gross - Rounding.MulDiv(Rounding.HalfEven, p.basis, p.rate, Rounding.ONE_SHARE);
      if gap > 100 || gap < -100 {
        Push(ExceptionRecord(p.account, gap, p.instrument, p.exDate, AmountMismatch), false);
        return AmountMismatch, [];
      }
      match Insert(income, AppliedKey(p.id, acct.row), TableSize(cap.actionsPerGen)) {
        case Full => return ArenaExhausted, [];
        case Duplicate => return AlreadyApplied, [];
        case New(after) => Credit(AppliedKey(p.id, acct.row), after);
      }
      var m := accounts[acct.row].m;
      WriteFunds(acct.row, DividendFunds(m, p));
      return Ok, [];
    }

    method Credit(k: AppliedKey, after: TwoGen)
      requires Valid() && Insert(income, k, TableSize(cap.actionsPerGen)) == New(after)
      modifies `income
      ensures Valid() && View() == WithIncome(old(View()), k, after)
    {
      hide WellFormed, Lists, TradesIndexed, Insert;
      ghost var d := WithIncome(View(), k, after);
      income := after;
      assert View() == d;
    }

    method Describe(q: Closing) returns (st: Err, outs: seq<PositionUpdate>)
      requires Valid()
      modifies this
      ensures Valid() && ApplyClosingPrice(old(View()), q) == Applied(View(), st, outs)
    {
      hide WellFormed, InternInstrument, Lists, TradesIndexed;
      if q.factor == 0 {
        return InvalidArgument, [];
      }
      var inst := InternInst(q.instrument);
      if inst == NoRoom {
        return ArenaExhausted, [];
      }
      var row := Instrument(q.instrument, q.symbol, q.isin, q.kind, q.factor, q.lot, q.closing, q.previous, q.date);
      ghost var d := SetInstrument(View(), inst.row, row);
      instruments := instruments[inst.row := row];
      assert View() == d;
      return Ok, [];
    }

    method Reconcile(date: Date, ds: seq<Divergence>)
      requires Valid()
      modifies this
      ensures Valid() && View() == Reconciled(old(View()), date, ds)
    {
      hide WellFormed, PushException, Lists, TradesIndexed;
      var i := 0;
      while i < |ds|
        invariant 0 <= i <= |ds| && Valid() && Reconciled(View(), date, ds[i..]) == Reconciled(old(View()), date, ds)
      {
        assert ds[i..][0] == ds[i] && ds[i..][1..] == ds[i + 1..];
        Push(ExceptionRecord(ds[i].account, ds[i].qtyDelta, ds[i].instrument, date, QtyMismatch), true);
        i := i + 1;
      }
    }

    /** The anchors: both sums recomputed over every row. */
    method Anchors() returns (custodySum: U64, cashSum: U64)
      ensures custodySum == Wrap64(CustodySum(custody)) && cashSum == Wrap64(CashSum(accounts))
    {
      var s, i := 0, 0;
      while i < |custody|
        invariant 0 <= i <= |custody| && s == CustodySum(custody[..i])
      {
        assert custody[..i + 1][..i] == custody[..i];
        s := s + BalancesSum(custody[i].b);
        i := i + 1;
      }
      assert custody[..i] == custody;
      var c := 0;
      i := 0;
      while i < |accounts|
        invariant 0 <= i <= |accounts| && c == CashSum(accounts[..i])
      {
        assert accounts[..i + 1][..i] == accounts[..i];
        c := c + AllMoney(accounts[i].m);
        i := i + 1;
      }
      assert accounts[..i] == accounts;
      return Wrap64(s), Wrap64(c);
    }

    method MarkEnd(custodySum: U64, cashSum: U64, marked: bool) returns (st: Err)
      requires Valid()
      modifies `diverged
      ensures Valid()
      ensures var r := ApplyEodMarked(old(View()), custodySum, cashSum, marked); View() == r.d && st == r.st
    {
      hide WellFormed, Lists, TradesIndexed, CustodySum, CashSum, Wrap64;
      if custodySum != 0 || cashSum != 0 {
        var s, c := Anchors();
        if s != custodySum || c != cashSum {
          return StateCorrupt;
        }
      }
      Stamped(View(), appliedLsn, diverged || marked);
      diverged := diverged || marked;
      return Ok;
    }

    // ---------------------------------------------------------------- dispatch

    /** One event, in place: state, status and updates are those of its specification, whatever the event. The lists
        stay lists but for one kind: an accepted allocation out of the hands of one who did not hold the trade. */
    method Apply(lsn: nat, e: Event) returns (st: Err, outs: seq<PositionUpdate>)
      requires Valid()
      modifies this, table
      ensures Applying.Apply(old(View()), lsn, e) == Applied(View(), st, outs)
      ensures if LosesTrade(old(View()), e, st) then Astray() else Valid()
    {
      hide WellFormed, Lists, TradesIndexed, ApplyTradeExecuted, ApplyTradeAllocated, ApplyTradeSettled, StrangerGives;
      hide TradeTable.Broken, TradeTable.Valid;
      hide ApplyCorporateAction, ApplyBatchNetted, Reconciled, ApplyDividendPaid, ApplyClosingPrice, ApplyDayOpened;
      hide ApplyEodMarked;
      st, outs := Ok, [];
      match e {
        case DayOpened(today, d1, d2, previous) =>
          DayIsSilent(View(), today, d1, d2, previous);
          st := OpenDay(today, d1, d2, previous);
        case TradeExecuted(x) => st, outs := Execute(x);
        case TradeAllocated(a) => st, outs := Allocate(a);
        case BatchNetted(account, net, date, count) => st, outs := Net(account, net, date, count);
        case TradeSettled(s) => st, outs := SettleTrade(s);
        case CorporateActionApplied(c) => st, outs := Act(c);
        case DividendPaid(p) => st, outs := Pay(p);
        case ClosingPriceSet(q) => st, outs := Describe(q);
        case CustodyReconciled(date, ds) => Reconcile(date, ds);
        case EodMarked(custodySum, cashSum, marked) =>
          AnchorsAreSilent(View(), custodySum, cashSum, marked);
          st := MarkEnd(custodySum, cashSum, marked);
        case Unreadable(why) => st := if why == ShortPayload then ShortPayload else UnknownTemplate;
      }
      Stamp(lsn);
    }

    method Stamp(lsn: nat)
      requires WellFormed(View())
      modifies `appliedLsn
      ensures View() == old(View()).(appliedLsn := lsn)
      ensures (old(Valid()) ==> Valid()) && (old(Astray()) ==> Astray())
    {
      hide TradeTable.Valid, TradeTable.Broken;
      Stamped(View(), lsn, diverged);
      hide WellFormed;
      appliedLsn := lsn;
    }
  }

  /** The giver does not hold the trade it gives to another: the source does not check it, and the lists rely on it. */
  ghost predicate StrangerGives(d: Ledger, a: Allocation)
    requires WellFormed(d)
  {
    RowsInRange(d);
    && a.trade in d.tradeIndex && a.from != a.to
    && d.accounts[d.trades[d.tradeIndex[a.trade]].account].document != a.from
  }

  /** An event after which the lists no longer say who holds what. */
  ghost predicate LosesTrade(d: Ledger, e: Event, st: Err)
    requires WellFormed(d)
  {
    e.TradeAllocated? && StrangerGives(d, e.a) && (st == Ok || st == StateCorrupt)
  }

  /** No event of the run is such an event. The laws of whole runs hold of the ledger without it; of the partition they
      hold with it, for after such an event the walks along lists no longer mean anything, and need not end. */
  ghost predicate KeepsTrades(d: Ledger, lsn: nat, es: seq<Event>)
    requires WellFormed(d)
    decreases |es|
  {
    es == [] ||
    (var a := Applying.Apply(d, lsn, es[0]);
     !LosesTrade(d, es[0], a.st) && (IsFatal(a.st) || KeepsTrades(a.d, lsn + 1, es[1..])))
  }

  /** A whole run in place is the run of the specification. */
  method RunInPlace(state: PartitionState, lsn: nat, es: seq<Event>) returns (st: Err)
    requires state.Valid() && KeepsTrades(state.View(), lsn, es)
    modifies state, state.table
    ensures state.Valid() && Run(old(state.View()), lsn, es) == Ran(state.View(), st)
  {
    hide WellFormed, Applying.Apply, LosesTrade, TradeTable.Valid, IsFatal, PartitionState.View;
    st := Ok;
    var i := 0;
    assert es[0..] == es;
    while i < |es|
      invariant 0 <= i <= |es| && st == Ok && state.Valid() && KeepsTrades(state.View(), lsn + i, es[i..])
      invariant Run(state.View(), lsn + i, es[i..]) == Run(old(state.View()), lsn, es)
    {
      assert es[i..][0] == es[i] && es[i..][1..] == es[i + 1..];
      var outs;
      st, outs := state.Apply(lsn + i, es[i]);
      if IsFatal(st) {
        return;
      }
      st := Ok;
      i := i + 1;
    }
    assert es[i..] == [];
  }

  lemma ErrorIsNot(a: Allocation, from: Balances, to: Balances, k: nat)
    requires k < 3
    ensures AllocationError(a, from, to, k) != StateCorrupt
  {
  }

  lemma RowsStay(d: Ledger, e: Ledger)
    requires Extends(d, e)
    ensures |d.accounts| <= |e.accounts| && |d.instruments| <= |e.instruments| && |d.custody| <= |e.custody|
    ensures e.cap == d.cap
  {
  }

  lemma Stamped(d: Ledger, lsn: nat, diverged: bool)
    requires WellFormed(d)
    ensures WellFormed(d.(appliedLsn := lsn, diverged := diverged))
  {
  }

  lemma DayIsSilent(d: Ledger, today: Date, d1: Date, d2: Date, previous: Date)
    requires WellFormed(d)
    ensures ApplyDayOpened(d, today, d1, d2, previous).outs == []
  {
    hide WellFormed;
  }

  lemma AnchorsAreSilent(d: Ledger, custodySum: U64, cashSum: U64, marked: bool)
    ensures ApplyEodMarked(d, custodySum, cashSum, marked).outs == []
  {
  }

  lemma TradeIn(d: Ledger, id: U64)
    requires WellFormed(d)
    ensures id in d.tradeIndex ==> d.tradeIndex[id] < |d.trades|
  {
  }

  lemma HolderKept(d: Ledger, d1: Ledger, e: Ledger, a: Allocation, from: nat, to: nat)
    requires WellFormed(d) && WellFormed(d1) && WellFormed(e) && a.trade in d.tradeIndex
    requires Extends(d, d1) && Extends(d1, e) && from < |d1.accounts| && to < |e.accounts|
    requires d1.accounts[from].document == a.from && e.accounts[to].document == a.to
    ensures d.tradeIndex[a.trade] < |e.trades| && from < |e.accounts|
    ensures StrangerGives(d, a) <==> from != to && e.trades[d.tradeIndex[a.trade]].account != from
  {
    RowsInRange(d);
  }

  lemma SizesKept(d: Ledger, p: nat, b: Balances)
    requires WellFormed(d) && p < |d.custody|
    ensures |SetBalances(d, p, b).custody| == |d.custody| && SetBalances(d, p, b).accounts == d.accounts
    ensures SetBalances(d, p, b).trades == d.trades
  {
  }

  lemma ExceptionsSized(d: Ledger)
    requires WellFormed(d)
    ensures |d.exceptions| == Min(d.exceptionCount, d.cap.exceptions)
  {
  }

  lemma SameLength(d: Ledger, accounts: seq<Account>, to: Window)
    requires exists from :: d.accounts == RotatedAccounts(accounts, from, to)
    ensures |d.accounts| == |accounts|
  {
  }

  lemma NothingTurns(from: Window, to: Window)
    ensures Turn(NOTHING, from, to) == Turned(NOTHING, 0)
  {
  }

  lemma SameIndex(rows: seq<Trade>, a: map<U64, nat>, b: map<U64, nat>)
    requires TradesIndexed(rows, a) && b == Reindexed(rows)
    ensures a == b
  {
    ReindexedIndexes(rows);
    assert forall k :: k in a <==> k in b;
  }
}
