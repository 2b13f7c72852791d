/** The recovery image: the state as columns, without its indexes, and how it is loaded back. */
module StateImages {
  import opened Bytes
  import opened Status
  import opened Calendar
  import opened Idempotency
  import opened Ledgers
  import opened Applying

  /** Generation is 0 or 1 in an image this program wrote; the loader keeps its low bit. */
  datatype KeyRecord = KeyRecord(key: AppliedKey, generation: nat)

  /** One array per field; the slots of row `i` are at `3 * i`, `3 * i + 1` and `3 * i + 2`. */
  datatype CustodyColumns = CustodyColumns(
    available: seq<int>, pendingBuy: seq<int>, pendingSell: seq<int>, overdueBuy: seq<int>, overdueSell: seq<int>,
    blocked: seq<int>, leftovers: seq<int>, avgPrice: seq<int>, account: seq<nat>, instrument: seq<nat>,
    flags: seq<bool>)

  datatype CashColumns = CashColumns(cash: seq<int>, pending: seq<int>, overdue: seq<int>, income: seq<int>,
                                     document: seq<U64>, firstTrade: seq<nat>)

  datatype InstrumentColumns = InstrumentColumns(
    id: seq<U32>, symbol: seq<seq<Byte>>, isin: seq<seq<Byte>>, kind: seq<nat>, factor: seq<nat>, lot: seq<nat>,
    closing: seq<int>, previous: seq<int>, date: seq<Date>)

  datatype TradeColumns = TradeColumns(
    id: seq<U64>, note: seq<U64>, account: seq<nat>, instrument: seq<nat>, qty: seq<int>, price: seq<int>,
    cash: seq<int>, date: seq<Date>, side: seq<nat>, state: seq<TradeState>, next: seq<nat>)

  datatype ImageHeader = ImageHeader(
    appliedLsn: nat, businessDate: Date, prevBusinessDate: Date, window: Window, diverged: bool, custodyCount: nat,
    cashCount: nat, instrumentCount: nat, tradeCount: nat, exceptionCount: nat, exceptionDropped: nat,
    actionsCurrent: bool, actionsRotation: Date, incomeCurrent: bool, incomeRotation: Date,
    custodySum: U64, cashSum: U64, cap: Capacity)

  datatype Image = Image(h: ImageHeader, custody: CustodyColumns, cash: CashColumns, instruments: InstrumentColumns,
                         trades: TradeColumns, exceptions: seq<ExceptionRecord>, actions: seq<KeyRecord>,
                         income: seq<KeyRecord>)

  /** A ledger together with the links of its lists of trades. */
  datatype Whole = Whole(d: Ledger, first: seq<nat>, next: seq<nat>)

  // ---------------------------------------------------------------- rows and columns

  /** The slots of every row, row after row. */
  function Flatten(ts: seq<Three>): (r: seq<int>)
    ensures |r| == 3 * |ts|
  {
    if ts == [] then [] else var t := ts[|ts| - 1]; Flatten(ts[..|ts| - 1]) + [t.d0, t.d1, t.d2]
  }

  function ThreeAt(xs: seq<int>, i: nat): Three
    requires 3 * i + 2 < |xs|
  {
    Three(xs[3 * i], xs[3 * i + 1], xs[3 * i + 2])
  }

  lemma {:induction false} FlattenAt(ts: seq<Three>, i: nat)
    requires i < |ts|
    ensures ThreeAt(Flatten(ts), i) == ts[i]
  {
    if i < |ts| - 1 {
      FlattenAt(ts[..|ts| - 1], i);
    }
  }

  function CustodyToColumns(rows: seq<Position>): CustodyColumns {
    var n := |rows|;
    CustodyColumns(
      seq(n, i requires 0 <= i < n => rows[i].b.available),
      Flatten(seq(n, i requires 0 <= i < n => rows[i].b.pendingBuy)),
      Flatten(seq(n, i requires 0 <= i < n => rows[i].b.pendingSell)),
      seq(n, i requires 0 <= i < n => rows[i].b.overdueBuy),
      seq(n, i requires 0 <= i < n => rows[i].b.overdueSell),
      seq(n, i requires 0 <= i < n => rows[i].b.blocked),
      seq(n, i requires 0 <= i < n => rows[i].b.leftovers),
      seq(n, i requires 0 <= i < n => rows[i].b.avgPrice),
      seq(n, i requires 0 <= i < n => rows[i].account),
      seq(n, i requires 0 <= i < n => rows[i].instrument),
      seq(n, i requires 0 <= i < n => rows[i].b.shortAllowed))
  }

  predicate CustodySized(c: CustodyColumns, n: nat) {
    && |c.available| == |c.overdueBuy| == |c.overdueSell| == |c.blocked| == |c.leftovers| == |c.avgPrice| == n
    && |c.account| == |c.instrument| == |c.flags| == n && |c.pendingBuy| == |c.pendingSell| == 3 * n
  }

  function CustodyRow(c: CustodyColumns, n: nat, i: nat): Position
    requires CustodySized(c, n) && i < n
  {
    Position(c.account[i], c.instrument[i],
             Balances(c.available[i], ThreeAt(c.pendingBuy, i), ThreeAt(c.pendingSell, i), c.overdueBuy[i],
                      c.overdueSell[i], c.blocked[i], c.leftovers[i], c.avgPrice[i], c.flags[i]))
  }

  function CustodyFromColumns(c: CustodyColumns, n: nat): seq<Position>
    requires CustodySized(c, n)
  {
    seq(n, i requires 0 <= i < n => CustodyRow(c, n, i))
  }

  lemma CustodyColumnsBack(rows: seq<Position>)
    ensures CustodySized(CustodyToColumns(rows), |rows|)
    ensures CustodyFromColumns(CustodyToColumns(rows), |rows|) == rows
  {
    var c, n := CustodyToColumns(rows), |rows|;
    forall i | 0 <= i < n
      ensures CustodyRow(c, n, i) == rows[i]
    {
      FlattenAt(seq(n, j requires 0 <= j < n => rows[j].b.pendingBuy), i);
      FlattenAt(seq(n, j requires 0 <= j < n => rows[j].b.pendingSell), i);
    }
  }

  function CashToColumns(rows: seq<Account>, first: seq<nat>): CashColumns {
    var n := |rows|;
    CashColumns(
      seq(n, i requires 0 <= i < n => rows[i].m.cash),
      Flatten(seq(n, i requires 0 <= i < n => rows[i].m.pending)),
      seq(n, i requires 0 <= i < n => rows[i].m.overdue),
      seq(n, i requires 0 <= i < n => rows[i].m.income),
      seq(n, i requires 0 <= i < n => rows[i].document),
      first)
  }

  predicate CashSized(c: CashColumns, n: nat) {
    |c.cash| == |c.overdue| == |c.income| == |c.document| == |c.firstTrade| == n && |c.pending| == 3 * n
  }

  function CashRow(c: CashColumns, n: nat, i: nat): Account
    requires CashSized(c, n) && i < n
  {
    Account(c.document[i], Funds(c.cash[i], ThreeAt(c.pending, i), c.overdue[i], c.income[i]))
  }

  function CashFromColumns(c: CashColumns, n: nat): seq<Account>
    requires CashSized(c, n)
  {
    seq(n, i requires 0 <= i < n => CashRow(c, n, i))
  }

  lemma CashColumnsBack(rows: seq<Account>, first: seq<nat>)
    requires |first| == |rows|
    ensures CashSized(CashToColumns(rows, first), |rows|)
    ensures CashFromColumns(CashToColumns(rows, first), |rows|) == rows
  {
    var c, n := CashToColumns(rows, first), |rows|;
    forall i | 0 <= i < n
      ensures CashRow(c, n, i) == rows[i]
    {
      FlattenAt(seq(n, j requires 0 <= j < n => rows[j].m.pending), i);
    }
  }

  function InstrumentsToColumns(rows: seq<Instrument>): InstrumentColumns {
    var n := |rows|;
    InstrumentColumns(
      seq(n, i requires 0 <= i < n => rows[i].id), seq(n, i requires 0 <= i < n => rows[i].symbol),
      seq(n, i requires 0 <= i < n => rows[i].isin), seq(n, i requires 0 <= i < n => rows[i].kind),
      seq(n, i requires 0 <= i < n => rows[i].factor), seq(n, i requires 0 <= i < n => rows[i].lot),
      seq(n, i requires 0 <= i < n => rows[i].closing), seq(n, i requires 0 <= i < n => rows[i].previous),
      seq(n, i requires 0 <= i < n => rows[i].date))
  }

  predicate InstrumentsSized(c: InstrumentColumns, n: nat) {
    && |c.id| == |c.symbol| == |c.isin| == |c.kind| == |c.factor| == n
    && |c.lot| == |c.closing| == |c.previous| == |c.date| == n
  }

  function InstrumentsFromColumns(c: InstrumentColumns, n: nat): seq<Instrument>
    requires InstrumentsSized(c, n)
  {
    seq(n, i requires 0 <= i < n =>
      Instrument(c.id[i], c.symbol[i], c.isin[i], c.kind[i], c.factor[i], c.lot[i], c.closing[i], c.previous[i],
                 c.date[i]))
  }

  lemma InstrumentColumnsBack(rows: seq<Instrument>)
    ensures InstrumentsSized(InstrumentsToColumns(rows), |rows|)
    ensures InstrumentsFromColumns(InstrumentsToColumns(rows), |rows|) == rows
  {
  }

  function TradesToColumns(rows: seq<Trade>, next: seq<nat>): TradeColumns {
    var n := |rows|;
    TradeColumns(
      seq(n, i requires 0 <= i < n => rows[i].id), seq(n, i requires 0 <= i < n => rows[i].note),
      seq(n, i requires 0 <= i < n => rows[i].account), seq(n, i requires 0 <= i < n => rows[i].instrument),
      seq(n, i requires 0 <= i < n => rows[i].qty), seq(n, i requires 0 <= i < n => rows[i].price),
      seq(n, i requires 0 <= i < n => rows[i].cash), seq(n, i requires 0 <= i < n => rows[i].date),
      seq(n, i requires 0 <= i < n => rows[i].side), seq(n, i requires 0 <= i < n => rows[i].state), next)
  }

  predicate TradesSized(c: TradeColumns, n: nat) {
    && |c.id| == |c.note| == |c.account| == |c.instrument| == |c.qty| == |c.price| == n
    && |c.cash| == |c.date| == |c.side| == |c.state| == |c.next| == n
  }

  function TradesFromColumns(c: TradeColumns, n: nat): seq<Trade>
    requires TradesSized(c, n)
  {
    seq(n, i requires 0 <= i < n =>
      Trade(c.id[i], c.note[i], c.account[i], c.instrument[i], c.qty[i], c.price[i], c.cash[i], c.date[i], c.side[i],
            c.state[i]))
  }

  lemma TradeColumnsBack(rows: seq<Trade>, next: seq<nat>)
    requires |next| == |rows|
    ensures TradesSized(TradesToColumns(rows, next), |rows|)
    ensures TradesFromColumns(TradesToColumns(rows, next), |rows|) == rows
  {
  }

  // ---------------------------------------------------------------- keys

  /** `ks` lists the keys of both generations, each once, marked with its generation, in any order. */
  ghost predicate Lists(ks: seq<KeyRecord>, s: TwoGen) {
    && (forall i, j :: 0 <= i < j < |ks| ==> ks[i] != ks[j])
    && (forall i :: 0 <= i < |ks| ==> ks[i].generation < 2)
    && (forall k :: k in s.gen0 <==> KeyRecord(k, 0) in ks)
    && (forall k :: k in s.gen1 <==> KeyRecord(k, 1) in ks)
  }

  datatype Reloaded = Reloaded(s: TwoGen) | NoRoom

  /** One pair into the generation it came from; an empty answer when it is there already or there is no room. */
  function InsertInto(s: TwoGen, k: KeyRecord, slots: nat): Reloaded {
    if k.generation % 2 == 0 then
      if k.key in s.gen0 || 10 * |s.gen0| >= 7 * slots then NoRoom else Reloaded(s.(gen0 := s.gen0 + {k.key}))
    else
      if k.key in s.gen1 || 10 * |s.gen1| >= 7 * slots then NoRoom else Reloaded(s.(gen1 := s.gen1 + {k.key}))
  }

  function InsertAll(s: TwoGen, ks: seq<KeyRecord>, slots: nat): Reloaded
    decreases |ks|
  {
    if ks == [] then Reloaded(s)
    else
      match InsertInto(s, ks[0], slots)
      case NoRoom => NoRoom
      case Reloaded(t) => InsertAll(t, ks[1..], slots)
  }

  /** The keys of `ks` up to `n`, as a set. */
  ghost function Half(ks: seq<KeyRecord>, n: nat, g: nat): set<AppliedKey>
    requires n <= |ks|
  {
    set i | 0 <= i < n && ks[i].generation == g :: ks[i].key
  }

  lemma HalfStep(ks: seq<KeyRecord>, n: nat, g: nat)
    requires n < |ks| && forall i, j :: 0 <= i < j < |ks| ==> ks[i] != ks[j]
    ensures Half(ks, n + 1, g) == Half(ks, n, g) + if ks[n].generation == g then {ks[n].key} else {}
    ensures ks[n].generation == g ==> ks[n].key !in Half(ks, n, g)
  {
    var more, fewer := Half(ks, n + 1, g), Half(ks, n, g);
    forall k | k in more
      ensures k in fewer + if ks[n].generation == g then {ks[n].key} else {}
    {
      var i :| 0 <= i < n + 1 && ks[i].generation == g && ks[i].key == k;
    }
    forall i | 0 <= i < n && ks[i].generation == g == ks[n].generation
      ensures ks[i].key != ks[n].key
    {
      assert ks[i] != ks[n];
    }
  }

  lemma HalfWithin(ks: seq<KeyRecord>, n: nat, s: TwoGen)
    requires n <= |ks| && Lists(ks, s)
    ensures Half(ks, n, 0) <= s.gen0 && Half(ks, n, 1) <= s.gen1
    ensures n == |ks| ==> Half(ks, n, 0) == s.gen0 && Half(ks, n, 1) == s.gen1
  {
    forall k | k in Half(ks, n, 0)
      ensures k in s.gen0
    {
      var i :| 0 <= i < n && ks[i].generation == 0 && ks[i].key == k;
      assert ks[i] == KeyRecord(k, 0);
    }
    forall k | k in Half(ks, n, 1)
      ensures k in s.gen1
    {
      var i :| 0 <= i < n && ks[i].generation == 1 && ks[i].key == k;
      assert ks[i] == KeyRecord(k, 1);
    }
    if n == |ks| {
      forall k | k in s.gen0
        ensures k in Half(ks, n, 0)
      {
        var i :| 0 <= i < |ks| && ks[i] == KeyRecord(k, 0);
      }
      forall k | k in s.gen1
        ensures k in Half(ks, n, 1)
      {
        var i :| 0 <= i < |ks| && ks[i] == KeyRecord(k, 1);
      }
    }
  }

  lemma SmallerHalf(a: set<AppliedKey>, b: set<AppliedKey>, k: AppliedKey, slots: nat)
    requires a <= b && k in b && k !in a && GenFits(b, slots)
    ensures 10 * |a| < 7 * slots
  {
    assert a <= b - {k};
    SubsetSize(a, b - {k});
  }

  lemma {:induction false} SubsetSize(a: set<AppliedKey>, b: set<AppliedKey>)
    requires a <= b
    ensures |a| <= |b|
    decreases |a|
  {
    if a != {} {
      var x :| x in a;
      SubsetSize(a - {x}, b - {x});
    }
  }

  /** The set with only the first `n` recorded keys in it. */
  ghost function Partly(s: TwoGen, ks: seq<KeyRecord>, n: nat): TwoGen
    requires n <= |ks|
  {
    s.(gen0 := Half(ks, n, 0), gen1 := Half(ks, n, 1))
  }

  lemma KeyFacts(s: TwoGen, ks: seq<KeyRecord>, n: nat)
    requires Lists(ks, s) && n < |ks|
    ensures ks[n].generation == 0 || ks[n].generation == 1
    ensures var here, there := Half(ks, n, ks[n].generation), if ks[n].generation == 0 then s.gen0 else s.gen1;
            && here <= there && ks[n].key in there && ks[n].key !in here
            && Half(ks, n + 1, ks[n].generation) == here + {ks[n].key}
    ensures Half(ks, n + 1, 1 - ks[n].generation) == Half(ks, n, 1 - ks[n].generation)
  {
    HalfWithin(ks, n, s);
    HalfStep(ks, n, 0);
    HalfStep(ks, n, 1);
    HalfWithin(ks, n + 1, s);
  }

  lemma KeyBack(s: TwoGen, ks: seq<KeyRecord>, n: nat, slots: nat)
    requires Lists(ks, s) && Fits(s, slots) && n < |ks|
    ensures InsertInto(Partly(s, ks, n), ks[n], slots) == Reloaded(Partly(s, ks, n + 1))
  {
    hide Half, GenFits, Lists;
    KeyFacts(s, ks, n);
    SmallerHalf(Half(ks, n, ks[n].generation), if ks[n].generation == 0 then s.gen0 else s.gen1, ks[n].key, slots);
  }

  /** Reinserting the recorded keys, in whatever order they were recorded, gives both generations back. */
  lemma {:induction false} KeysBack(s: TwoGen, ks: seq<KeyRecord>, n: nat, slots: nat)
    requires Lists(ks, s) && Fits(s, slots) && n <= |ks|
    ensures InsertAll(Partly(s, ks, n), ks[n..], slots) == Reloaded(s)
    decreases |ks| - n
  {
    hide Fits, InsertInto, Half, Lists;
    if n < |ks| {
      KeyBack(s, ks, n, slots);
      assert ks[n..][0] == ks[n] && ks[n..][1..] == ks[n + 1..];
      KeysBack(s, ks, n + 1, slots);
    } else {
      HalfWithin(ks, n, s);
      assert ks[n..] == [];
    }
  }

  // ---------------------------------------------------------------- indexes rebuilt

  function IndexAccounts(rows: seq<Account>): map<U64, nat> {
    if rows == [] then map[]
    else
      var m, row := IndexAccounts(rows[..|rows| - 1]), rows[|rows| - 1];
      if row.document in m then m else m[row.document := |rows| - 1]
  }

  function IndexInstruments(rows: seq<Instrument>): map<U32, nat> {
    if rows == [] then map[]
    else
      var m, row := IndexInstruments(rows[..|rows| - 1]), rows[|rows| - 1];
      if row.id in m then m else m[row.id := |rows| - 1]
  }

  function IndexPositions(rows: seq<Position>): map<PositionKey, nat> {
    if rows == [] then map[]
    else
      var m, row := IndexPositions(rows[..|rows| - 1]), rows[|rows| - 1];
      if KeyOf(row) in m then m else m[KeyOf(row) := |rows| - 1]
  }

  function IndexTrades(rows: seq<Trade>): map<U64, nat> {
    if rows == [] then map[]
    else
      var m, row := IndexTrades(rows[..|rows| - 1]), rows[|rows| - 1];
      if row.id in m then m else m[row.id := |rows| - 1]
  }

  lemma {:induction false} AccountsBack(rows: seq<Account>, index: map<U64, nat>, n: nat)
    requires AccountsIndexed(rows, index) && n <= |rows|
    ensures forall k :: k in IndexAccounts(rows[..n]) <==> k in index && index[k] < n
    ensures forall k :: k in IndexAccounts(rows[..n]) ==> IndexAccounts(rows[..n])[k] == index[k]
  {
    if n > 0 {
      AccountsBack(rows, index, n - 1);
      assert rows[..n][..n - 1] == rows[..n - 1];
    }
  }

  lemma {:induction false} InstrumentsBack(rows: seq<Instrument>, index: map<U32, nat>, n: nat)
    requires InstrumentsIndexed(rows, index) && n <= |rows|
    ensures forall k :: k in IndexInstruments(rows[..n]) <==> k in index && index[k] < n
    ensures forall k :: k in IndexInstruments(rows[..n]) ==> IndexInstruments(rows[..n])[k] == index[k]
  {
    if n > 0 {
      InstrumentsBack(rows, index, n - 1);
      assert rows[..n][..n - 1] == rows[..n - 1];
    }
  }

  lemma {:induction false} PositionsBack(rows: seq<Position>, index: map<PositionKey, nat>, n: nat)
    requires PositionsIndexed(rows, index) && n <= |rows|
    ensures forall k :: k in IndexPositions(rows[..n]) <==> k in index && index[k] < n
    ensures forall k :: k in IndexPositions(rows[..n]) ==> IndexPositions(rows[..n])[k] == index[k]
  {
    hide KeyOf;
    if n > 0 {
      PositionsBack(rows, index, n - 1);
      assert rows[..n][..n - 1] == rows[..n - 1];
    }
  }

  lemma {:induction false} TradesBack(rows: seq<Trade>, index: map<U64, nat>, n: nat)
    requires TradesIndexed(rows, index) && n <= |rows|
    ensures forall k :: k in IndexTrades(rows[..n]) <==> k in index && index[k] < n
    ensures forall k :: k in IndexTrades(rows[..n]) ==> IndexTrades(rows[..n])[k] == index[k]
  {
    if n > 0 {
      TradesBack(rows, index, n - 1);
      assert rows[..n][..n - 1] == rows[..n - 1];
    }
  }

  /** Scanning the rows again gives the very indexes that were left out of the image. */
  lemma IndexesBack(d: Ledger)
    requires WellFormed(d)
    ensures IndexAccounts(d.accounts) == d.accountIndex && IndexInstruments(d.instruments) == d.instrumentIndex
    ensures IndexPositions(d.custody) == d.positionIndex && IndexTrades(d.trades) == d.tradeIndex
  {
    hide IndexAccounts, IndexInstruments, IndexPositions, IndexTrades, WithinCapacity, PositionsOwned, TradesOwned;
    AccountsBack(d.accounts, d.accountIndex, |d.accounts|);
    InstrumentsBack(d.instruments, d.instrumentIndex, |d.instruments|);
    PositionsBack(d.custody, d.positionIndex, |d.custody|);
    TradesBack(d.trades, d.tradeIndex, |d.trades|);
    assert d.accounts[..|d.accounts|] == d.accounts && d.instruments[..|d.instruments|] == d.instruments;
    assert d.custody[..|d.custody|] == d.custody && d.trades[..|d.trades|] == d.trades;
  }

  // ---------------------------------------------------------------- save and load

  function HeaderOf(d: Ledger): ImageHeader {
    ImageHeader(d.appliedLsn, d.businessDate, d.prevBusinessDate, d.window, d.diverged, |d.custody|, |d.accounts|,
                |d.instruments|, |d.trades|, d.exceptionCount, d.exceptionDropped, d.actions.current,
                d.actions.rotation, d.income.current, d.income.rotation, Wrap64(CustodySum(d.custody)),
                Wrap64(CashSum(d.accounts)), d.cap)
  }

  /** An image of the state: every column, the counters, and the keys of both sets in any order. */
  ghost predicate ImageOf(w: Whole, img: Image) {
    && img.h == HeaderOf(w.d)
    && img.custody == CustodyToColumns(w.d.custody) && img.cash == CashToColumns(w.d.accounts, w.first)
    && img.instruments == InstrumentsToColumns(w.d.instruments)
    && img.trades == TradesToColumns(w.d.trades, w.next)
    && img.exceptions == w.d.exceptions
    && Lists(img.actions, w.d.actions) && Lists(img.income, w.d.income)
  }

  datatype Loading = Loaded(w: Whole) | Failed(err: Err)

  predicate CountsFit(h: ImageHeader) {
    && h.custodyCount <= h.cap.positions && h.cashCount <= h.cap.accounts
    && h.instrumentCount <= h.cap.instruments && h.tradeCount <= h.cap.trades
  }

  predicate SectionsFit(img: Image) {
    && CustodySized(img.custody, img.h.custodyCount) && CashSized(img.cash, img.h.cashCount)
    && InstrumentsSized(img.instruments, img.h.instrumentCount) && TradesSized(img.trades, img.h.tradeCount)
    && |img.exceptions| == Min(img.h.exceptionCount, img.h.cap.exceptions)
  }

  /** Counters, columns, keys, indexes, and last the anchors, each with its own way to fail. */
  function Load(img: Image): Loading {
    var h := img.h;
    if !CountsFit(h) || !SectionsFit(img) then Failed(StateCorrupt)
    else
      var slots := TableSize(h.cap.actionsPerGen);
      match InsertAll(TwoGen({}, {}, h.actionsCurrent, h.actionsRotation), img.actions, slots)
      case NoRoom => Failed(ArenaExhausted)
      case Reloaded(actions) =>
        match InsertAll(TwoGen({}, {}, h.incomeCurrent, h.incomeRotation), img.income, slots)
        case NoRoom => Failed(ArenaExhausted)
        case Reloaded(income) =>
          var custody := CustodyFromColumns(img.custody, h.custodyCount);
          var accounts := CashFromColumns(img.cash, h.cashCount);
          var instruments := InstrumentsFromColumns(img.instruments, h.instrumentCount);
          var trades := TradesFromColumns(img.trades, h.tradeCount);
          if Wrap64(CustodySum(custody)) != h.custodySum || Wrap64(CashSum(accounts)) != h.cashSum then
            Failed(StateCorrupt)
          else
            Loaded(Whole(
              Ledger(custody, accounts, instruments, trades, IndexAccounts(accounts), IndexPositions(custody),
                     IndexInstruments(instruments), IndexTrades(trades), actions, income, img.exceptions,
                     h.exceptionCount, h.exceptionDropped, h.diverged, h.window, h.businessDate, h.prevBusinessDate,
                     h.appliedLsn, h.cap),
              img.cash.firstTrade, img.trades.next))
  }

  /** Loading an image of a state gives that state back, whole: columns, links, keys and indexes. */
  lemma LoadBack(w: Whole, img: Image)
    requires WellFormed(w.d) && |w.first| == |w.d.accounts| && |w.next| == |w.d.trades| && ImageOf(w, img)
    ensures Load(img) == Loaded(w)
  {
    hide CustodyToColumns, CustodyFromColumns, CashToColumns, CashFromColumns, InstrumentsToColumns;
    hide InstrumentsFromColumns, TradesToColumns, TradesFromColumns, CustodySum, CashSum, InsertAll;
    hide IndexAccounts, IndexPositions, IndexInstruments, IndexTrades, Lists;
    var d := w.d;
    CustodyColumnsBack(d.custody);
    CashColumnsBack(d.accounts, w.first);
    InstrumentColumnsBack(d.instruments);
    TradeColumnsBack(d.trades, w.next);
    LinksBack(w);
    IndexesBack(d);
    SetBack(d.actions, img.actions, TableSize(d.cap.actionsPerGen));
    SetBack(d.income, img.income, TableSize(d.cap.actionsPerGen));
  }

  lemma LinksBack(w: Whole)
    ensures CashToColumns(w.d.accounts, w.first).firstTrade == w.first
    ensures TradesToColumns(w.d.trades, w.next).next == w.next
  {
  }

  lemma SetBack(s: TwoGen, ks: seq<KeyRecord>, slots: nat)
    requires Lists(ks, s) && Fits(s, slots)
    ensures InsertAll(TwoGen({}, {}, s.current, s.rotation), ks, slots) == Reloaded(s)
  {
    hide Lists, InsertAll;
    KeysBack(s, ks, 0, slots);
    assert ks[0..] == ks;
    assert Half(ks, 0, 0) == {} && Half(ks, 0, 1) == {};
  }

  /** Whatever an image holds, the loader never accepts one whose sums are not those it announces. */
  lemma LoadedSums(img: Image)
    requires Load(img).Loaded?
    ensures var d := Load(img).w.d;
            && Wrap64(CustodySum(d.custody)) == img.h.custodySum && Wrap64(CashSum(d.accounts)) == img.h.cashSum
            && |d.custody| == img.h.custodyCount <= d.cap.positions && |d.accounts| == img.h.cashCount <= d.cap.accounts
            && |d.trades| == img.h.tradeCount <= d.cap.trades
  {
    hide CustodySum, CashSum, InsertAll, IndexAccounts, IndexPositions, IndexInstruments, IndexTrades;
  }
}
