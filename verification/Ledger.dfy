/** The ledger of one partition, and what each event does to it. */
module Ledgers {
  import opened Bytes
  import opened Status
  import opened Calendar
  import opened Idempotency

  // ---------------------------------------------------------------- trades

  datatype TradeState = Absent | Executed | Allocated | Netted | Settled | DeliveryFailed | Closed

  datatype Trigger = Execute | Allocate | Net | Settle | Fail | BuyIn | Close

  /** The graph of trade states; `Absent` for every pair that is not an edge. */
  function NextState(s: TradeState, t: Trigger): TradeState {
    match (s, t)
    case (Absent, Execute) => Executed
    case (Executed, Allocate) => Allocated
    case (Allocated, Net) => Netted
    case (Netted, Settle) => Settled
    case (Netted, Fail) => DeliveryFailed
    case (DeliveryFailed, BuyIn) => Netted
    case (DeliveryFailed, Close) => Closed
    case (Settled, Close) => Closed
    case _ => Absent
  }

  const BUY := 1

  datatype Trade = Trade(id: U64, note: U64, account: nat, instrument: nat, qty: int, price: int, cash: int,
                         date: Date, side: nat, state: TradeState)

  // ---------------------------------------------------------------- rows

  /** One value for each settlement date in flight. */
  datatype Three = Three(d0: int, d1: int, d2: int)

  const NOTHING := Three(0, 0, 0)

  function At(t: Three, k: nat): int
    requires k < 3
  {
    if k == 0 then t.d0 else if k == 1 then t.d1 else t.d2
  }

  function Plus(t: Three, k: nat, x: int): Three
    requires k < 3
  {
    if k == 0 then t.(d0 := t.d0 + x) else if k == 1 then t.(d1 := t.d1 + x) else t.(d2 := t.d2 + x)
  }

  function Sum(t: Three): int {
    t.d0 + t.d1 + t.d2
  }

  /** The buckets of one position. */
  datatype Balances = Balances(available: int, pendingBuy: Three, pendingSell: Three, overdueBuy: int,
                               overdueSell: int, blocked: int, leftovers: int, avgPrice: int, shortAllowed: bool)

  const NO_BALANCES := Balances(0, NOTHING, NOTHING, 0, 0, 0, 0, 0, false)

  datatype Position = Position(account: nat, instrument: nat, b: Balances)

  /** What the depository holds today. */
  function CustodyToday(b: Balances): int {
    b.available + b.blocked + b.leftovers + b.overdueSell + Sum(b.pendingSell)
  }

  /** What remains once everything pending has settled. */
  function CustodyProjected(b: Balances): int {
    b.available + b.blocked + b.leftovers + b.overdueBuy + Sum(b.pendingBuy)
  }

  predicate NoneNegative(t: Three) {
    t.d0 >= 0 && t.d1 >= 0 && t.d2 >= 0
  }

  /** No bucket is negative, save what is free where selling short was allowed. */
  predicate BucketsNonNegative(b: Balances) {
    && (b.available >= 0 || b.shortAllowed)
    && b.blocked >= 0 && b.leftovers >= 0 && b.overdueBuy >= 0 && b.overdueSell >= 0
    && NoneNegative(b.pendingBuy) && NoneNegative(b.pendingSell)
  }

  /** The money of one account. */
  datatype Funds = Funds(cash: int, pending: Three, overdue: int, income: int)

  const NO_FUNDS := Funds(0, NOTHING, 0, 0)

  datatype Account = Account(document: U64, m: Funds)

  function AllMoney(m: Funds): int {
    m.cash + Sum(m.pending) + m.overdue + m.income
  }

  datatype Instrument = Instrument(id: U32, symbol: seq<Byte>, isin: seq<Byte>, kind: nat, factor: nat, lot: nat,
                                   closing: int, previous: int, date: Date)

  datatype ExceptionRecord = ExceptionRecord(document: U64, delta: int, instrument: nat, date: Date, err: Err)

  /** The three settlement dates in flight. */
  datatype Window = Window(d0: Date, d1: Date, d2: Date)

  datatype Slot = InSlot(k: nat) | NoSlot

  function SlotOf(w: Window, d: Date): (s: Slot)
    ensures s.InSlot? ==> s.k < 3
  {
    if w.d0 == d then InSlot(0) else if w.d1 == d then InSlot(1) else if w.d2 == d then InSlot(2) else NoSlot
  }

  function DateAt(w: Window, k: nat): Date
    requires k < 3
  {
    if k == 0 then w.d0 else if k == 1 then w.d1 else w.d2
  }

  datatype Capacity = Capacity(accounts: nat, instruments: nat, positions: nat, trades: nat, actionsPerGen: nat,
                               exceptions: nat, windowDays: int)

  datatype PositionKey = PositionKey(account: nat, instrument: nat)

  datatype Ledger = Ledger(
    custody: seq<Position>, accounts: seq<Account>, instruments: seq<Instrument>, trades: seq<Trade>,
    accountIndex: map<U64, nat>, positionIndex: map<PositionKey, nat>, instrumentIndex: map<U32, nat>,
    tradeIndex: map<U64, nat>, actions: TwoGen, income: TwoGen, exceptions: seq<ExceptionRecord>,
    exceptionCount: nat, exceptionDropped: nat, diverged: bool, window: Window, businessDate: Date,
    prevBusinessDate: Date, appliedLsn: nat, cap: Capacity)

  // ---------------------------------------------------------------- indexes agree with rows

  ghost predicate AccountsIndexed(rows: seq<Account>, index: map<U64, nat>) {
    && (forall i :: 0 <= i < |rows| ==> rows[i].document in index && index[rows[i].document] == i)
    && (forall k :: k in index ==> index[k] < |rows| && rows[index[k]].document == k)
  }

  ghost predicate InstrumentsIndexed(rows: seq<Instrument>, index: map<U32, nat>) {
    && (forall i :: 0 <= i < |rows| ==> rows[i].id in index && index[rows[i].id] == i)
    && (forall k :: k in index ==> index[k] < |rows| && rows[index[k]].id == k)
  }

  function KeyOf(p: Position): PositionKey {
    PositionKey(p.account, p.instrument)
  }

  ghost predicate PositionsIndexed(rows: seq<Position>, index: map<PositionKey, nat>) {
    && (forall i :: 0 <= i < |rows| ==> KeyOf(rows[i]) in index && index[KeyOf(rows[i])] == i)
    && (forall k :: k in index ==> index[k] < |rows| && KeyOf(rows[index[k]]) == k)
  }

  ghost predicate TradesIndexed(rows: seq<Trade>, index: map<U64, nat>) {
    && (forall i :: 0 <= i < |rows| ==> rows[i].id in index && index[rows[i].id] == i)
    && (forall k :: k in index ==> index[k] < |rows| && rows[index[k]].id == k)
  }

  ghost predicate PositionsOwned(rows: seq<Position>, accounts: nat, instruments: nat) {
    forall i :: 0 <= i < |rows| ==> rows[i].account < accounts && rows[i].instrument < instruments
  }

  ghost predicate TradesOwned(rows: seq<Trade>, accounts: nat, instruments: nat) {
    forall i :: 0 <= i < |rows| ==> rows[i].account < accounts && rows[i].instrument < instruments
  }

  function Min(a: nat, b: nat): nat {
    if a < b then a else b
  }

  /** A generation as full as its table lets it become. */
  predicate GenFits(g: set<AppliedKey>, slots: nat) {
    g == {} || 10 * (|g| - 1) < 7 * slots
  }

  predicate Fits(s: TwoGen, slots: nat) {
    GenFits(s.gen0, slots) && GenFits(s.gen1, slots)
  }

  /** No table holds more than it was made for. */
  predicate WithinCapacity(d: Ledger) {
    && |d.accounts| <= d.cap.accounts && |d.instruments| <= d.cap.instruments
    && |d.custody| <= d.cap.positions && |d.trades| <= d.cap.trades
    && Fits(d.actions, TableSize(d.cap.actionsPerGen)) && Fits(d.income, TableSize(d.cap.actionsPerGen))
    && |d.exceptions| == Min(d.exceptionCount, d.cap.exceptions)
  }

  /** Every row is found through its index, every index entry names a row, and rows refer to rows. */
  ghost predicate WellFormed(d: Ledger) {
    && AccountsIndexed(d.accounts, d.accountIndex) && InstrumentsIndexed(d.instruments, d.instrumentIndex)
    && PositionsIndexed(d.custody, d.positionIndex) && TradesIndexed(d.trades, d.tradeIndex)
    && PositionsOwned(d.custody, |d.accounts|, |d.instruments|)
    && TradesOwned(d.trades, |d.accounts|, |d.instruments|)
    && WithinCapacity(d)
  }

  function NewLedger(cap: Capacity): (d: Ledger)
    ensures WellFormed(d)
  {
    Ledger([], [], [], [], map[], map[], map[], map[], Empty(), Empty(), [], 0, 0, false, Window(0, 0, 0), 0, 0, 0,
           cap)
  }

  lemma RowsInRange(d: Ledger)
    requires WellFormed(d)
    ensures forall k :: k in d.accountIndex ==> d.accountIndex[k] < |d.accounts|
    ensures forall k :: k in d.instrumentIndex ==> d.instrumentIndex[k] < |d.instruments|
    ensures forall k :: k in d.positionIndex ==> d.positionIndex[k] < |d.custody|
    ensures forall k :: k in d.tradeIndex ==> d.tradeIndex[k] < |d.trades|
    ensures forall i :: 0 <= i < |d.custody| ==>
              d.custody[i].account < |d.accounts| && d.custody[i].instrument < |d.instruments|
    ensures forall i :: 0 <= i < |d.trades| ==>
              d.trades[i].account < |d.accounts| && d.trades[i].instrument < |d.instruments|
  {
  }

  // ---------------------------------------------------------------- interning

  /** New rows may have been appended, all of them empty; nothing else differs. */
  ghost predicate Extends(d: Ledger, e: Ledger) {
    && d.accounts <= e.accounts && d.instruments <= e.instruments && d.custody <= e.custody
    && (forall i :: |d.accounts| <= i < |e.accounts| ==> e.accounts[i].m == NO_FUNDS)
    && (forall i :: |d.instruments| <= i < |e.instruments| ==> e.instruments[i].factor == 0)
    && (forall i :: |d.custody| <= i < |e.custody| ==> e.custody[i].b == NO_BALANCES)
    && e == d.(accounts := e.accounts, instruments := e.instruments, custody := e.custody,
               accountIndex := e.accountIndex, instrumentIndex := e.instrumentIndex, positionIndex := e.positionIndex)
  }

  lemma ExtendsAgain(d: Ledger, e: Ledger, f: Ledger)
    requires Extends(d, e) && Extends(e, f)
    ensures Extends(d, f)
  {
  }

  lemma ExtendsSizes(d: Ledger, e: Ledger)
    requires Extends(d, e)
    ensures |d.accounts| <= |e.accounts| && |d.instruments| <= |e.instruments| && |d.custody| <= |e.custody|
  {
  }

  lemma InstrumentKept(d: Ledger, e: Ledger, i: nat)
    requires Extends(d, e) && i < |d.instruments|
    ensures i < |e.instruments| && e.instruments[i] == d.instruments[i]
  {
  }

  lemma ExtendsTables(d: Ledger, e: Ledger)
    requires Extends(d, e)
    ensures e.trades == d.trades && e.tradeIndex == d.tradeIndex && e.window == d.window && e.cap == d.cap
  {
  }

  /** A row found or made; the table being full is an answer even for a row that exists. */
  datatype Interned = Row(d: Ledger, row: nat) | TableFull

  function InternAccount(d: Ledger, doc: U64): (r: Interned)
    requires WellFormed(d)
    ensures r.Row? ==>
              WellFormed(r.d) && Extends(d, r.d) && r.row < |r.d.accounts| && r.d.accounts[r.row].document == doc
    ensures r.TableFull? <==> |d.accounts| >= d.cap.accounts
    ensures r.Row? && doc in d.accountIndex ==> r.d == d && r.row == d.accountIndex[doc]
  {
    if |d.accounts| >= d.cap.accounts then TableFull
    else if doc in d.accountIndex then Row(d, d.accountIndex[doc])
    else
      Row(d.(accounts := d.accounts + [Account(doc, NO_FUNDS)],
             accountIndex := d.accountIndex[doc := |d.accounts|]), |d.accounts|)
  }

  function InternInstrument(d: Ledger, id: U32): (r: Interned)
    requires WellFormed(d)
    ensures r.Row? ==>
              WellFormed(r.d) && Extends(d, r.d) && r.row < |r.d.instruments| && r.d.instruments[r.row].id == id
    ensures r.TableFull? <==> |d.instruments| >= d.cap.instruments
    ensures r.Row? && id in d.instrumentIndex ==> r.d == d && r.row == d.instrumentIndex[id]
  {
    if |d.instruments| >= d.cap.instruments then TableFull
    else if id in d.instrumentIndex then Row(d, d.instrumentIndex[id])
    else
      Row(d.(instruments := d.instruments + [Instrument(id, Zeros(12), Zeros(12), 0, 0, 0, 0, 0, 0)],
             instrumentIndex := d.instrumentIndex[id := |d.instruments|]), |d.instruments|)
  }

  function InternPosition(d: Ledger, account: nat, instrument: nat): (r: Interned)
    requires WellFormed(d) && account < |d.accounts| && instrument < |d.instruments|
    ensures r.Row? ==> WellFormed(r.d) && Extends(d, r.d) && r.row < |r.d.custody|
                       && KeyOf(r.d.custody[r.row]) == PositionKey(account, instrument)
    ensures r.TableFull? <==> |d.custody| >= d.cap.positions
    ensures r.Row? && PositionKey(account, instrument) in d.positionIndex ==>
              r.d == d && r.row == d.positionIndex[PositionKey(account, instrument)]
  {
    var key := PositionKey(account, instrument);
    if |d.custody| >= d.cap.positions then TableFull
    else if key in d.positionIndex then Row(d, d.positionIndex[key])
    else
      Row(d.(custody := d.custody + [Position(account, instrument, NO_BALANCES)],
             positionIndex := d.positionIndex[key := |d.custody|]), |d.custody|)
  }

  // ---------------------------------------------------------------- writing a row

  function SetBalances(d: Ledger, i: nat, b: Balances): (r: Ledger)
    requires WellFormed(d) && i < |d.custody|
    ensures WellFormed(r)
  {
    d.(custody := d.custody[i := d.custody[i].(b := b)])
  }

  function SetFunds(d: Ledger, i: nat, m: Funds): (r: Ledger)
    requires WellFormed(d) && i < |d.accounts|
    ensures WellFormed(r)
  {
    d.(accounts := d.accounts[i := d.accounts[i].(m := m)])
  }

  function SetInstrument(d: Ledger, i: nat, a: Instrument): (r: Ledger)
    requires WellFormed(d) && i < |d.instruments| && a.id == d.instruments[i].id
    ensures WellFormed(r)
  {
    d.(instruments := d.instruments[i := a])
  }

  function AddTrade(d: Ledger, t: Trade): (r: Ledger)
    requires WellFormed(d) && t.id !in d.tradeIndex && |d.trades| < d.cap.trades
    requires t.account < |d.accounts| && t.instrument < |d.instruments|
    ensures WellFormed(r)
  {
    d.(trades := d.trades + [t], tradeIndex := d.tradeIndex[t.id := |d.trades|])
  }

  function SetTrade(d: Ledger, i: nat, t: Trade): (r: Ledger)
    requires WellFormed(d) && i < |d.trades| && t.id == d.trades[i].id
    requires t.account < |d.accounts| && t.instrument < |d.instruments|
    ensures WellFormed(r)
  {
    d.(trades := d.trades[i := t])
  }

  /** Every trade's state set anew; nothing else about trades may differ. */
  function SetStates(d: Ledger, ts: seq<Trade>): (r: Ledger)
    requires WellFormed(d) && |ts| == |d.trades|
    requires forall i :: 0 <= i < |ts| ==> ts[i] == d.trades[i].(state := ts[i].state)
    ensures WellFormed(r)
  {
    d.(trades := ts)
  }

  function RingSlot(count: nat, cap: nat): (at: nat)
    requires cap > 0
    ensures at < cap
  {
    count % cap
  }

  /** The exception queue is circular: once full, the oldest record is overwritten and counted as dropped. */
  function PushException(d: Ledger, r: ExceptionRecord, mark: bool): (d': Ledger)
    requires WellFormed(d)
    ensures WellFormed(d')
  {
    if d.cap.exceptions == 0 then d
    else if d.exceptionCount < d.cap.exceptions then
      d.(exceptions := d.exceptions + [r], exceptionCount := d.exceptionCount + 1, diverged := d.diverged || mark)
    else
      var at := RingSlot(d.exceptionCount, d.cap.exceptions);
      d.(exceptions := d.exceptions[at := r], exceptionDropped := d.exceptionDropped + 1,
         exceptionCount := d.exceptionCount + 1, diverged := d.diverged || mark)
  }

  /** A queue of `cap` slots after the records of `all` came in, in that order: the newest, as many as there is room
      for, each at the slot its number falls on. */
  ghost predicate Newest<T>(q: seq<T>, all: seq<T>, cap: nat)
    requires cap > 0
  {
    && |q| == Min(|all|, cap)
    && forall i :: |all| - |q| <= i < |all| ==> RingSlot(i, cap) < |q| && q[RingSlot(i, cap)] == all[i]
  }

  /** The exception queue after the records of `all`: the newest kept, the rest counted. */
  ghost predicate Queued(d: Ledger, all: seq<ExceptionRecord>)
    requires d.cap.exceptions > 0
  {
    && Newest(d.exceptions, all, d.cap.exceptions)
    && d.exceptionCount == |all| && d.exceptionDropped == |all| - |d.exceptions|
  }

  lemma RingSlotsDiffer(i: nat, j: nat, cap: nat)
    requires i < j < i + cap
    ensures RingSlot(i, cap) != RingSlot(j, cap)
  {
    var more := j / cap - i / cap;
    assert j - i == cap * more + (j % cap - i % cap);
    if more > 0 {
      assert cap * more >= cap;
    }
  }

  lemma RingSlotFirst(i: nat, cap: nat)
    requires i < cap
    ensures RingSlot(i, cap) == i
  {
  }

  lemma NewestStep<T>(q: seq<T>, all: seq<T>, x: T, cap: nat)
    requires cap > 0 && Newest(q, all, cap)
    ensures |all| >= cap ==> RingSlot(|all|, cap) < |q|
    ensures Newest(if |all| < cap then q + [x] else q[RingSlot(|all|, cap) := x], all + [x], cap)
  {
    hide RingSlot;
    var q' := if |all| < cap then q + [x] else q[RingSlot(|all|, cap) := x];
    forall i | |all| + 1 - |q'| <= i < |all| + 1
      ensures RingSlot(i, cap) < |q'| && q'[RingSlot(i, cap)] == (all + [x])[i]
    {
      if |all| < cap {
        RingSlotFirst(i, cap);
      } else if i < |all| {
        RingSlotsDiffer(i, |all|, cap);
      }
    }
  }

  /** One record more comes in; once the queue is full, the oldest goes and is counted. */
  lemma PushQueues(d: Ledger, all: seq<ExceptionRecord>, r: ExceptionRecord, mark: bool)
    requires WellFormed(d) && d.cap.exceptions > 0 && Queued(d, all)
    ensures Queued(PushException(d, r, mark), all + [r])
  {
    NewestStep(d.exceptions, all, r, d.cap.exceptions);
    hide WellFormed, Newest, RingSlot;
    NewestSize(d.exceptions, all, d.cap.exceptions);
    NewestSize(PushException(d, r, mark).exceptions, all + [r], d.cap.exceptions);
  }

  lemma NewestSize<T>(q: seq<T>, all: seq<T>, cap: nat)
    requires cap > 0 && Newest(q, all, cap)
    ensures |q| == Min(|all|, cap)
  {
  }
}
