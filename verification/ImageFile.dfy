/** The recovery image as one file: header, references and sections, and how the state is read back from its bytes. */
module ImageFiles {
  import opened Bytes
  import opened Status
  import opened Calendar
  import Idempotency
  import opened Ledgers
  import opened Applying
  import opened ImageBytes
  import opened StateImages

  const IMAGE_MAGIC := 0x324D_5352 // 'RSM2', little-endian
  const IMAGE_VERSION := 2
  const FIXED_BYTES := 144
  const REF_BYTES := 24
  const SECTIONS := 40
  const HEADER_BYTES := 1112

  // ---------------------------------------------------------------- rows of numbers of fixed widths

  function Sum(ws: seq<nat>): nat {
    if ws == [] then 0 else ws[0] + Sum(ws[1..])
  }

  predicate RowFits(ws: seq<nat>, row: seq<nat>) {
    |ws| == |row| && forall i :: 0 <= i < |ws| ==> row[i] < Pow256(ws[i])
  }

  function WriteRow(ws: seq<nat>, row: seq<nat>): (s: seq<Byte>)
    requires |ws| == |row|
    ensures |s| == Sum(ws)
  {
    if ws == [] then [] else Le(ws[0], row[0]) + WriteRow(ws[1..], row[1..])
  }

  function ReadRow(ws: seq<nat>, s: seq<Byte>): (row: seq<nat>)
    requires |s| >= Sum(ws)
    ensures |row| == |ws|
  {
    if ws == [] then [] else [FromLe(s[..ws[0]])] + ReadRow(ws[1..], s[ws[0]..])
  }

  lemma HeadAndTail(head: seq<Byte>, tail: seq<Byte>, rest: seq<Byte>)
    ensures var s := head + tail + rest;
            s[..|head|] == head && s[|head|..] == tail + rest
  {
  }

  lemma {:induction false} RowBack(ws: seq<nat>, row: seq<nat>, rest: seq<Byte>)
    requires RowFits(ws, row)
    ensures ReadRow(ws, WriteRow(ws, row) + rest) == row
  {
    if ws != [] {
      LeRoundTrip(ws[0], row[0]);
      hide Le, FromLe;
      RowBack(ws[1..], row[1..], rest);
      HeadAndTail(Le(ws[0], row[0]), WriteRow(ws[1..], row[1..]), rest);
    }
  }

  ghost predicate TableFits(ws: seq<nat>, rows: seq<seq<nat>>) {
    forall i :: 0 <= i < |rows| ==> RowFits(ws, rows[i])
  }

  function WriteRows(ws: seq<nat>, rows: seq<seq<nat>>): (s: seq<Byte>)
    requires forall i :: 0 <= i < |rows| ==> |rows[i]| == |ws|
    ensures |s| == Sum(ws) * |rows|
  {
    hide WriteRow;
    if rows == [] then []
    else
      OneMore(Sum(ws), |rows|);
      WriteRow(ws, rows[0]) + WriteRows(ws, rows[1..])
  }

  lemma OneMore(a: nat, n: nat)
    requires n > 0
    ensures a * n == a + a * (n - 1)
  {
  }

  function ReadRows(ws: seq<nat>, n: nat, s: seq<Byte>): (rows: seq<seq<nat>>)
    requires |s| == Sum(ws) * n
    ensures |rows| == n
  {
    hide ReadRow;
    if n == 0 then []
    else
      OneMore(Sum(ws), n);
      [ReadRow(ws, s[..Sum(ws)])] + ReadRows(ws, n - 1, s[Sum(ws)..])
  }

  lemma {:induction false} RowsBack(ws: seq<nat>, rows: seq<seq<nat>>)
    requires TableFits(ws, rows)
    ensures ReadRows(ws, |rows|, WriteRows(ws, rows)) == rows
  {
    if rows != [] {
      var s := WriteRows(ws, rows);
      assert RowFits(ws, rows[0]);
      RowBack(ws, rows[0], []);
      RowsBack(ws, rows[1..]);
      assert s[..Sum(ws)] == WriteRow(ws, rows[0]) == WriteRow(ws, rows[0]) + [];
      assert s[Sum(ws)..] == WriteRows(ws, rows[1..]);
    }
  }

  // ---------------------------------------------------------------- tables as sections

  function SectionsFor(ws: seq<seq<nat>>, tables: seq<seq<seq<nat>>>): (ss: seq<Section>)
    requires |ws| == |tables|
    requires forall k :: 0 <= k < |ws| ==> forall i :: 0 <= i < |tables[k]| ==> |tables[k][i]| == |ws[k]|
    ensures |ss| == |ws|
  {
    if ws == [] then []
    else [Section(Sum(ws[0]), |tables[0]|, WriteRows(ws[0], tables[0]))] + SectionsFor(ws[1..], tables[1..])
  }

  function ShapesFor(ws: seq<seq<nat>>, counts: seq<nat>): (r: seq<Shape>)
    requires |ws| == |counts|
    ensures |r| == |ws|
  {
    if ws == [] then [] else [Shape(Sum(ws[0]), counts[0])] + ShapesFor(ws[1..], counts[1..])
  }

  /** The tables that byte strings of these shapes hold. */
  function TablesFrom(ws: seq<seq<nat>>, counts: seq<nat>, datas: seq<seq<Byte>>): (r: seq<seq<seq<nat>>>)
    requires |ws| == |counts| == |datas|
    ensures |r| == |ws|
  {
    if ws == [] then []
    else
      [if |datas[0]| == Sum(ws[0]) * counts[0] then ReadRows(ws[0], counts[0], datas[0]) else []]
      + TablesFrom(ws[1..], counts[1..], datas[1..])
  }

  ghost predicate AllFit(ws: seq<seq<nat>>, counts: seq<nat>, tables: seq<seq<seq<nat>>>) {
    && |ws| == |counts| == |tables|
    && forall k :: 0 <= k < |ws| ==> |tables[k]| == counts[k] && TableFits(ws[k], tables[k])
  }

  lemma {:induction false} TablesBack(ws: seq<seq<nat>>, counts: seq<nat>, tables: seq<seq<seq<nat>>>)
    requires AllFit(ws, counts, tables)
    ensures forall k :: 0 <= k < |ws| ==> forall i :: 0 <= i < |tables[k]| ==> |tables[k][i]| == |ws[k]|
    ensures var ss := SectionsFor(ws, tables);
            && (forall k :: 0 <= k < |ss| ==> Shaped(ss[k]))
            && Shapes(ss) == ShapesFor(ws, counts)
            && |Datas(ss)| == |ws| && TablesFrom(ws, counts, Datas(ss)) == tables
    decreases |ws|
  {
    forall k | 0 <= k < |ws|
      ensures forall i :: 0 <= i < |tables[k]| ==> |tables[k][i]| == |ws[k]|
    {
      assert TableFits(ws[k], tables[k]);
      assert forall i :: 0 <= i < |tables[k]| ==> RowFits(ws[k], tables[k][i]);
    }
    if ws != [] {
      assert TableFits(ws[0], tables[0]);
      RowsBack(ws[0], tables[0]);
      TablesBack(ws[1..], counts[1..], tables[1..]);
      var ss := SectionsFor(ws, tables);
      assert ss[1..] == SectionsFor(ws[1..], tables[1..]);
      assert Datas(ss)[1..] == Datas(ss[1..]);
      forall k | 0 <= k < |ss|
        ensures Shaped(ss[k])
      {
        if k > 0 {
          assert ss[k] == ss[1..][k - 1];
        }
      }
    }
  }

  // ---------------------------------------------------------------- columns as tables

  function One(xs: seq<nat>): (rows: seq<seq<nat>>)
    ensures |rows| == |xs| && forall i :: 0 <= i < |xs| ==> rows[i] == [xs[i]]
  {
    seq(|xs|, i requires 0 <= i < |xs| => [xs[i]])
  }

  function FromOne(rows: seq<seq<nat>>): (xs: seq<nat>)
    ensures |xs| == |rows|
  {
    seq(|rows|, i requires 0 <= i < |rows| => if |rows[i]| > 0 then rows[i][0] else 0)
  }

  function Signs(xs: seq<int>): (r: seq<nat>)
    ensures |r| == |xs| && forall i :: 0 <= i < |xs| ==> r[i] == Wrap64(xs[i])
  {
    seq(|xs|, i requires 0 <= i < |xs| => Wrap64(xs[i]))
  }

  function FromSigns(ns: seq<nat>): (r: seq<int>)
    ensures |r| == |ns|
  {
    seq(|ns|, i requires 0 <= i < |ns| => ToSigned(ns[i]))
  }

  function Flag(b: bool): nat {
    if b then 1 else 0
  }

  function Flags(bs: seq<bool>): (r: seq<nat>)
    ensures |r| == |bs| && forall i :: 0 <= i < |bs| ==> r[i] < 2
  {
    seq(|bs|, i requires 0 <= i < |bs| => Flag(bs[i]))
  }

  function FromFlags(ns: seq<nat>): (r: seq<bool>)
    ensures |r| == |ns|
  {
    seq(|ns|, i requires 0 <= i < |ns| => ns[i] % 2 == 1)
  }

  function StateCode(s: TradeState): nat {
    match s
    case Absent => 0
    case Executed => 1
    case Allocated => 2
    case Netted => 3
    case Settled => 4
    case DeliveryFailed => 5
    case Closed => 6
  }

  function StateFrom(n: nat): TradeState {
    if n == 1 then Executed else if n == 2 then Allocated else if n == 3 then Netted else if n == 4 then Settled
    else if n == 5 then DeliveryFailed else if n == 6 then Closed else Absent
  }

  function States(ss: seq<TradeState>): (r: seq<nat>)
    ensures |r| == |ss| && forall i :: 0 <= i < |ss| ==> r[i] < 7
  {
    seq(|ss|, i requires 0 <= i < |ss| => StateCode(ss[i]))
  }

  function FromStates(ns: seq<nat>): (r: seq<TradeState>)
    ensures |r| == |ns|
  {
    seq(|ns|, i requires 0 <= i < |ns| => StateFrom(ns[i]))
  }

  /** Twelve characters as one number of twelve bytes. */
  function Texts(ss: seq<seq<Byte>>): (r: seq<nat>)
    ensures |r| == |ss|
  {
    seq(|ss|, i requires 0 <= i < |ss| => FromLe(ss[i]))
  }

  function FromTexts(ns: seq<nat>): (r: seq<seq<Byte>>)
    ensures |r| == |ns|
  {
    seq(|ns|, i requires 0 <= i < |ns| => Le(12, ns[i]))
  }

  predicate AllInt64(xs: seq<int>) {
    forall i :: 0 <= i < |xs| ==> Int64(xs[i])
  }

  predicate Below(xs: seq<nat>, bound: nat) {
    forall i :: 0 <= i < |xs| ==> xs[i] < bound
  }

  predicate AllTwelve(ss: seq<seq<Byte>>) {
    forall i :: 0 <= i < |ss| ==> |ss[i]| == 12
  }

  lemma OneBack(xs: seq<nat>)
    ensures FromOne(One(xs)) == xs
  {
  }

  lemma SignsBack(xs: seq<int>)
    requires AllInt64(xs)
    ensures FromSigns(FromOne(One(Signs(xs)))) == xs
  {
    OneBack(Signs(xs));
  }

  lemma FlagsBack(bs: seq<bool>)
    ensures FromFlags(FromOne(One(Flags(bs)))) == bs
  {
    OneBack(Flags(bs));
  }

  lemma StatesBack(ss: seq<TradeState>)
    ensures FromStates(FromOne(One(States(ss)))) == ss
  {
    OneBack(States(ss));
  }

  lemma TextsBack(ss: seq<seq<Byte>>)
    requires AllTwelve(ss)
    ensures FromTexts(FromOne(One(Texts(ss)))) == ss
  {
    OneBack(Texts(ss));
    forall i | 0 <= i < |ss|
      ensures Le(12, FromLe(ss[i])) == ss[i]
    {
      FromLeRoundTrip(ss[i]);
    }
  }

  lemma OneFits(xs: seq<nat>, w: nat, bound: nat)
    requires Below(xs, bound) && bound <= Pow256(w)
    ensures TableFits([w], One(xs))
  {
  }

  lemma SignsFit(xs: seq<int>)
    ensures TableFits([8], One(Signs(xs)))
  {
    Widths();
    OneFits(Signs(xs), 8, 0x1_0000_0000_0000_0000);
  }

  lemma TextsFit(ss: seq<seq<Byte>>)
    requires AllTwelve(ss)
    ensures TableFits([12], One(Texts(ss)))
  {
    forall i | 0 <= i < |ss|
      ensures FromLe(ss[i]) < Pow256(12)
    {
      FromLeBound(ss[i]);
    }
    OneFits(Texts(ss), 12, Pow256(12));
  }

  // ---------------------------------------------------------------- the sections, in their fixed order

  const CUSTODY: seq<seq<nat>> := [[8], [8], [8], [8], [8], [8], [8], [8], [4], [4], [1]]
  const CASH: seq<seq<nat>> := [[8], [8], [8], [8], [8], [4]]
  const INSTRUMENTS: seq<seq<nat>> := [[4], [12], [12], [1], [4], [4], [8], [8], [4]]
  const TRADES: seq<seq<nat>> := [[8], [8], [4], [4], [8], [8], [8], [4], [1], [1], [4]]
  const EXCEPTIONS: seq<seq<nat>> := [[8, 8, 4, 4, 2, 2, 4]]
  const KEY_WIDTHS: seq<nat> := [8, 4, 4]

  function Layout(): (ws: seq<seq<nat>>)
    ensures |ws| == 38
  {
    CUSTODY + CASH + INSTRUMENTS + TRADES + EXCEPTIONS
  }

  function CustodyCounts(n: nat): seq<nat> {
    [n, 3 * n, 3 * n, n, n, n, n, n, n, n, n]
  }

  function CashCounts(n: nat): seq<nat> {
    [n, 3 * n, n, n, n, n]
  }

  function InstrumentCounts(n: nat): seq<nat> {
    [n, n, n, n, n, n, n, n, n]
  }

  function TradeCounts(n: nat): seq<nat> {
    [n, n, n, n, n, n, n, n, n, n, n]
  }

  /** How many elements the counters say each section has. */
  function CountsOf(h: ImageHeader): (r: seq<nat>)
    ensures |r| == 38
  {
    CustodyCounts(h.custodyCount) + CashCounts(h.cashCount) + InstrumentCounts(h.instrumentCount)
    + TradeCounts(h.tradeCount) + [Ledgers.Min(h.exceptionCount, h.cap.exceptions)]
  }

  function CustodyTables(c: CustodyColumns): (r: seq<seq<seq<nat>>>)
    ensures |r| == 11
  {
    [One(Signs(c.available)), One(Signs(c.pendingBuy)), One(Signs(c.pendingSell)), One(Signs(c.overdueBuy)),
     One(Signs(c.overdueSell)), One(Signs(c.blocked)), One(Signs(c.leftovers)), One(Signs(c.avgPrice)),
     One(c.account), One(c.instrument), One(Flags(c.flags))]
  }

  function CustodyOf(ts: seq<seq<seq<nat>>>): CustodyColumns
    requires |ts| == 11
  {
    CustodyColumns(FromSigns(FromOne(ts[0])), FromSigns(FromOne(ts[1])), FromSigns(FromOne(ts[2])),
                   FromSigns(FromOne(ts[3])), FromSigns(FromOne(ts[4])), FromSigns(FromOne(ts[5])),
                   FromSigns(FromOne(ts[6])), FromSigns(FromOne(ts[7])), FromOne(ts[8]), FromOne(ts[9]),
                   FromFlags(FromOne(ts[10])))
  }

  ghost predicate NarrowCustody(c: CustodyColumns) {
    && AllInt64(c.available) && AllInt64(c.pendingBuy) && AllInt64(c.pendingSell) && AllInt64(c.overdueBuy)
    && AllInt64(c.overdueSell) && AllInt64(c.blocked) && AllInt64(c.leftovers) && AllInt64(c.avgPrice)
    && Below(c.account, 0x1_0000_0000) && Below(c.instrument, 0x1_0000_0000)
  }

  lemma CustodyBack(c: CustodyColumns, n: nat)
    requires NarrowCustody(c) && CustodySized(c, n)
    ensures CustodyOf(CustodyTables(c)) == c && AllFit(CUSTODY, CustodyCounts(n), CustodyTables(c))
  {
    hide TableFits, AllInt64, Below, One, FromOne, Signs, FromSigns, Flags, FromFlags;
    SignsBack(c.available);
    SignsBack(c.pendingBuy);
    SignsBack(c.pendingSell);
    SignsBack(c.overdueBuy);
    SignsBack(c.overdueSell);
    SignsBack(c.blocked);
    SignsBack(c.leftovers);
    SignsBack(c.avgPrice);
    SignsFit(c.available);
    SignsFit(c.pendingBuy);
    SignsFit(c.pendingSell);
    SignsFit(c.overdueBuy);
    SignsFit(c.overdueSell);
    SignsFit(c.blocked);
    SignsFit(c.leftovers);
    SignsFit(c.avgPrice);
    SmallFits(c.account);
    SmallFits(c.instrument);
    OneBack(c.account);
    OneBack(c.instrument);
    FlagsBack(c.flags);
    FlagsFit(c.flags);
  }

  lemma SmallFits(xs: seq<nat>)
    requires Below(xs, 0x1_0000_0000)
    ensures TableFits([4], One(xs))
  {
    Widths();
    OneFits(xs, 4, 0x1_0000_0000);
  }

  lemma ByteFits(xs: seq<nat>)
    requires Below(xs, 256)
    ensures TableFits([1], One(xs))
  {
    assert Pow256(1) == 256;
    OneFits(xs, 1, 256);
  }

  lemma FlagsFit(bs: seq<bool>)
    ensures TableFits([1], One(Flags(bs)))
  {
    ByteFits(Flags(bs));
  }

  lemma StatesFit(ss: seq<TradeState>)
    ensures TableFits([1], One(States(ss)))
  {
    ByteFits(States(ss));
  }

  lemma WideFits(xs: seq<U64>)
    ensures TableFits([8], One(xs))
  {
    Widths();
    OneFits(xs, 8, 0x1_0000_0000_0000_0000);
  }

  function ToU64s(ns: seq<nat>): (r: seq<U64>)
    ensures |r| == |ns|
  {
    seq(|ns|, i requires 0 <= i < |ns| => ns[i] % 0x1_0000_0000_0000_0000)
  }

  function ToU32s(ns: seq<nat>): (r: seq<U32>)
    ensures |r| == |ns|
  {
    seq(|ns|, i requires 0 <= i < |ns| => ns[i] % 0x1_0000_0000)
  }

  lemma U64sBack(xs: seq<U64>)
    ensures ToU64s(FromOne(One(xs))) == xs
  {
    OneBack(xs);
  }

  lemma U32sBack(xs: seq<U32>)
    ensures ToU32s(FromOne(One(xs))) == xs && TableFits([4], One(xs))
  {
    OneBack(xs);
    SmallFits(xs);
  }

  function CashTables(c: CashColumns): (r: seq<seq<seq<nat>>>)
    ensures |r| == 6
  {
    [One(Signs(c.cash)), One(Signs(c.pending)), One(Signs(c.overdue)), One(Signs(c.income)), One(c.document),
     One(c.firstTrade)]
  }

  function CashOf(ts: seq<seq<seq<nat>>>): CashColumns
    requires |ts| == 6
  {
    CashColumns(FromSigns(FromOne(ts[0])), FromSigns(FromOne(ts[1])), FromSigns(FromOne(ts[2])),
                FromSigns(FromOne(ts[3])), ToU64s(FromOne(ts[4])), FromOne(ts[5]))
  }

  ghost predicate NarrowCash(c: CashColumns) {
    && AllInt64(c.cash) && AllInt64(c.pending) && AllInt64(c.overdue) && AllInt64(c.income)
    && Below(c.firstTrade, 0x1_0000_0000)
  }

  lemma CashBack(c: CashColumns, n: nat)
    requires NarrowCash(c) && CashSized(c, n)
    ensures CashOf(CashTables(c)) == c && AllFit(CASH, CashCounts(n), CashTables(c))
  {
    hide TableFits, AllInt64, Below, One, FromOne, Signs, FromSigns, ToU64s;
    SignsBack(c.cash);
    SignsBack(c.pending);
    SignsBack(c.overdue);
    SignsBack(c.income);
    SignsFit(c.cash);
    SignsFit(c.pending);
    SignsFit(c.overdue);
    SignsFit(c.income);
    U64sBack(c.document);
    WideFits(c.document);
    OneBack(c.firstTrade);
    SmallFits(c.firstTrade);
  }

  function InstrumentTables(c: InstrumentColumns): (r: seq<seq<seq<nat>>>)
    ensures |r| == 9
  {
    [One(c.id), One(Texts(c.symbol)), One(Texts(c.isin)), One(c.kind), One(c.factor), One(c.lot),
     One(Signs(c.closing)), One(Signs(c.previous)), One(c.date)]
  }

  function InstrumentsOf(ts: seq<seq<seq<nat>>>): InstrumentColumns
    requires |ts| == 9
  {
    InstrumentColumns(ToU32s(FromOne(ts[0])), FromTexts(FromOne(ts[1])), FromTexts(FromOne(ts[2])), FromOne(ts[3]),
                      FromOne(ts[4]), FromOne(ts[5]), FromSigns(FromOne(ts[6])), FromSigns(FromOne(ts[7])),
                      FromOne(ts[8]))
  }

  ghost predicate NarrowInstruments(c: InstrumentColumns) {
    && AllTwelve(c.symbol) && AllTwelve(c.isin) && Below(c.kind, 256) && Below(c.factor, 0x1_0000_0000)
    && Below(c.lot, 0x1_0000_0000) && AllInt64(c.closing) && AllInt64(c.previous) && Below(c.date, 0x1_0000_0000)
  }

  lemma InstrumentsBack(c: InstrumentColumns, n: nat)
    requires NarrowInstruments(c) && InstrumentsSized(c, n)
    ensures InstrumentsOf(InstrumentTables(c)) == c && AllFit(INSTRUMENTS, InstrumentCounts(n), InstrumentTables(c))
  {
    hide TableFits, AllInt64, Below, AllTwelve, One, FromOne, Signs, FromSigns, Texts, FromTexts, ToU32s;
    U32sBack(c.id);
    TextsBack(c.symbol);
    TextsBack(c.isin);
    TextsFit(c.symbol);
    TextsFit(c.isin);
    OneBack(c.kind);
    ByteFits(c.kind);
    OneBack(c.factor);
    SmallFits(c.factor);
    OneBack(c.lot);
    SmallFits(c.lot);
    SignsBack(c.closing);
    SignsFit(c.closing);
    SignsBack(c.previous);
    SignsFit(c.previous);
    OneBack(c.date);
    SmallFits(c.date);
  }

  function TradeTablesOf(c: TradeColumns): (r: seq<seq<seq<nat>>>)
    ensures |r| == 11
  {
    [One(c.id), One(c.note), One(c.account), One(c.instrument), One(Signs(c.qty)), One(Signs(c.price)),
     One(Signs(c.cash)), One(c.date), One(c.side), One(States(c.state)), One(c.next)]
  }

  function TradesOf(ts: seq<seq<seq<nat>>>): TradeColumns
    requires |ts| == 11
  {
    TradeColumns(ToU64s(FromOne(ts[0])), ToU64s(FromOne(ts[1])), FromOne(ts[2]), FromOne(ts[3]),
                 FromSigns(FromOne(ts[4])), FromSigns(FromOne(ts[5])), FromSigns(FromOne(ts[6])), FromOne(ts[7]),
                 FromOne(ts[8]), FromStates(FromOne(ts[9])), FromOne(ts[10]))
  }

  ghost predicate NarrowTrades(c: TradeColumns) {
    && Below(c.account, 0x1_0000_0000) && Below(c.instrument, 0x1_0000_0000)
    && AllInt64(c.qty) && AllInt64(c.price) && AllInt64(c.cash) && Below(c.date, 0x1_0000_0000)
    && Below(c.side, 256) && Below(c.next, 0x1_0000_0000)
  }

  lemma TradesBackAgain(c: TradeColumns, n: nat)
    requires NarrowTrades(c) && TradesSized(c, n)
    ensures TradesOf(TradeTablesOf(c)) == c && AllFit(TRADES, TradeCounts(n), TradeTablesOf(c))
  {
    hide TableFits, AllInt64, Below, One, FromOne, Signs, FromSigns, States, FromStates, ToU64s;
    U64sBack(c.id);
    WideFits(c.id);
    U64sBack(c.note);
    WideFits(c.note);
    OneBack(c.account);
    SmallFits(c.account);
    OneBack(c.instrument);
    SmallFits(c.instrument);
    SignsBack(c.qty);
    SignsFit(c.qty);
    SignsBack(c.price);
    SignsFit(c.price);
    SignsBack(c.cash);
    SignsFit(c.cash);
    OneBack(c.date);
    SmallFits(c.date);
    OneBack(c.side);
    ByteFits(c.side);
    StatesBack(c.state);
    StatesFit(c.state);
    OneBack(c.next);
    SmallFits(c.next);
  }

  // ---------------------------------------------------------------- records

  function ErrFrom(n: nat): Err {
    if n == 1 then OutOfRange else if n == 2 then ArenaExhausted else if n == 3 then Overflow
    else if n == 4 then NotFound else if n == 5 then WouldBlock else if n == 6 then InvalidArgument
    else if n == 100 then UnknownTemplate else if n == 101 then ShortPayload else if n == 102 then BadBlockLength
    else if n == 200 then InvalidTransition else if n == 201 then AlreadyApplied else if n == 203 then QtyMismatch
    else if n == 205 then AmountMismatch else if n == 206 then ShortSaleNotAllowed
    else if n == 207 then InstrumentNotDescribed else if n == 208 then OutsideSettlementWindow
    else if n == 253 then StateCorrupt else if n == 300 then WalFull else if n == 351 then IoError
    else if n == 352 then BadCrc else if n == 353 then BadMagic else Ok
  }

  function ExceptionRow(x: ExceptionRecord): (row: seq<nat>)
    ensures |row| == 7
  {
    [x.document, Wrap64(x.delta), x.instrument, x.date, Code(x.err), 0, 0]
  }

  function ExceptionFrom(row: seq<nat>): ExceptionRecord {
    if |row| != 7 then ExceptionRecord(0, 0, 0, 0, Ok)
    else
      ExceptionRecord(row[0] % 0x1_0000_0000_0000_0000, ToSigned(row[1]), row[2], row[3], ErrFrom(row[4]))
  }

  function ExceptionRows(xs: seq<ExceptionRecord>): (r: seq<seq<nat>>)
    ensures |r| == |xs| && forall i :: 0 <= i < |xs| ==> r[i] == ExceptionRow(xs[i])
  {
    seq(|xs|, i requires 0 <= i < |xs| => ExceptionRow(xs[i]))
  }

  function ExceptionsFrom(rows: seq<seq<nat>>): (r: seq<ExceptionRecord>)
    ensures |r| == |rows|
  {
    seq(|rows|, i requires 0 <= i < |rows| => ExceptionFrom(rows[i]))
  }

  predicate NarrowException(x: ExceptionRecord) {
    Int64(x.delta) && x.instrument < 0x1_0000_0000 && x.date < 0x1_0000_0000
  }

  lemma ExceptionBack(x: ExceptionRecord)
    requires NarrowException(x)
    ensures ExceptionFrom(ExceptionRow(x)) == x && RowFits(EXCEPTIONS[0], ExceptionRow(x))
  {
    Widths();
    assert ErrFrom(Code(x.err)) == x.err && Code(x.err) < 0x1_0000;
  }

  ghost predicate NarrowExceptions(xs: seq<ExceptionRecord>) {
    forall i :: 0 <= i < |xs| ==> NarrowException(xs[i])
  }

  lemma ExceptionsBack(xs: seq<ExceptionRecord>)
    requires NarrowExceptions(xs)
    ensures ExceptionsFrom(ExceptionRows(xs)) == xs && AllFit(EXCEPTIONS, [|xs|], [ExceptionRows(xs)])
  {
    hide ExceptionFrom, ExceptionRow, RowFits, NarrowException;
    forall i | 0 <= i < |xs|
      ensures ExceptionFrom(ExceptionRow(xs[i])) == xs[i] && RowFits(EXCEPTIONS[0], ExceptionRow(xs[i]))
    {
      ExceptionBack(xs[i]);
    }
  }

  function KeyRow(k: KeyRecord): (row: seq<nat>)
    ensures |row| == 3
  {
    [k.key.action, k.key.account, k.generation]
  }

  function KeyFrom(row: seq<nat>): KeyRecord {
    if |row| != 3 then KeyRecord(Idempotency.AppliedKey(0, 0), 0)
    else KeyRecord(Idempotency.AppliedKey(row[0] % 0x1_0000_0000_0000_0000, row[1]), row[2])
  }

  function KeyRows(ks: seq<KeyRecord>): (r: seq<seq<nat>>)
    ensures |r| == |ks| && forall i :: 0 <= i < |ks| ==> r[i] == KeyRow(ks[i])
  {
    seq(|ks|, i requires 0 <= i < |ks| => KeyRow(ks[i]))
  }

  function KeysFrom(rows: seq<seq<nat>>): (r: seq<KeyRecord>)
    ensures |r| == |rows|
  {
    seq(|rows|, i requires 0 <= i < |rows| => KeyFrom(rows[i]))
  }

  ghost predicate NarrowKeys(ks: seq<KeyRecord>) {
    forall i :: 0 <= i < |ks| ==> ks[i].key.account < 0x1_0000_0000 && ks[i].generation < 0x1_0000_0000
  }

  lemma KeysReadBack(ks: seq<KeyRecord>)
    requires NarrowKeys(ks)
    ensures KeysFrom(KeyRows(ks)) == ks && TableFits(KEY_WIDTHS, KeyRows(ks))
  {
    Widths();
  }

  // ---------------------------------------------------------------- the header

  /** What an image holds beside the ledger: its partition, and the sizes of the outbox. */
  datatype File = File(partition: U16, outboxSlots: U32, outboxBytes: U32, img: Image)

  const HEAD: seq<nat> := [4, 2, 2, 8, 8]
  const SUMS: seq<nat> := [8, 8]
  const REF: seq<nat> := [8, 4, 4, 4, 4]

  lemma WidthsAdd()
    ensures Sum(HEAD) == 24 && Sum(SUMS) == 16 && Sum([4]) == 4
    ensures Sum(REF) == REF_BYTES && Sum(KEY_WIDTHS) == 16
  {
    assert HEAD[1..] == [2, 2, 8, 8] && [2, 2, 8, 8][1..] == [2, 8, 8] && [2, 8, 8][1..] == SUMS;
    assert SUMS[1..] == [8] && [8][1..] == [] && [4][1..] == [];
    assert REF[1..] == [4, 4, 4, 4] && [4, 4, 4, 4][1..] == [4, 4, 4] && [4, 4, 4][1..] == [4, 4];
    assert [4, 4][1..] == [4] && KEY_WIDTHS[1..] == [4, 4];
  }

  function Wrap32(x: int): nat {
    x % 0x1_0000_0000
  }

  function ToSigned32(u: int): int {
    if u >= 0x8000_0000 then u - 0x1_0000_0000 else u
  }

  function HeadRow(f: File, total: nat): (row: seq<nat>)
    ensures |row| == 5
  {
    [IMAGE_MAGIC, IMAGE_VERSION, f.partition, total, f.img.h.appliedLsn]
  }

  function SmallRow(h: ImageHeader): (row: seq<nat>)
    ensures |row| == 16
  {
    [h.businessDate, h.prevBusinessDate, h.window.d0, h.window.d1, h.window.d2, Flag(h.diverged),
     h.custodyCount, h.cashCount, h.instrumentCount, h.tradeCount, h.exceptionCount, h.exceptionDropped,
     Flag(h.actionsCurrent), h.actionsRotation, Flag(h.incomeCurrent), h.incomeRotation]
  }

  function CapRow(f: File): (row: seq<nat>)
    ensures |row| == 10
  {
    var cap := f.img.h.cap;
    [cap.accounts, cap.instruments, cap.positions, cap.trades, cap.actionsPerGen, cap.exceptions, f.outboxSlots,
     f.outboxBytes, Wrap32(cap.windowDays), 0]
  }

  function HeaderFrom(head: seq<nat>, small: seq<nat>, sums: seq<nat>, caps: seq<nat>): ImageHeader
    requires |head| == 5 && |small| == 16 && |sums| == 2 && |caps| == 10
  {
    ImageHeader(head[4], small[0], small[1], Window(small[2], small[3], small[4]), small[5] % 2 == 1,
                small[6], small[7], small[8], small[9], small[10], small[11],
                small[12] % 2 == 1, small[13], small[14] % 2 == 1, small[15],
                sums[0] % 0x1_0000_0000_0000_0000, sums[1] % 0x1_0000_0000_0000_0000,
                Capacity(caps[0], caps[1], caps[2], caps[3], caps[4], caps[5], ToSigned32(caps[8])))
  }

  predicate Small(n: nat) {
    n < 0x1_0000_0000
  }

  predicate NarrowHeader(h: ImageHeader) {
    && h.appliedLsn < 0x1_0000_0000_0000_0000 && Small(h.businessDate) && Small(h.prevBusinessDate)
    && Small(h.window.d0) && Small(h.window.d1) && Small(h.window.d2) && Small(h.custodyCount) && Small(h.cashCount)
    && Small(h.instrumentCount) && Small(h.tradeCount) && Small(h.exceptionCount) && Small(h.exceptionDropped)
    && Small(h.actionsRotation) && Small(h.incomeRotation) && Small(h.cap.accounts) && Small(h.cap.instruments)
    && Small(h.cap.positions) && Small(h.cap.trades) && Small(h.cap.actionsPerGen) && Small(h.cap.exceptions)
    && -0x8000_0000 <= h.cap.windowDays < 0x8000_0000
  }

  /** The fields before the references. */
  function FixedBytes(f: File, total: nat): (s: seq<Byte>)
    ensures |s| == FIXED_BYTES
  {
    WidthsAdd();
    WriteRow(HEAD, HeadRow(f, total)) + WriteRows([4], One(SmallRow(f.img.h)))
    + WriteRow(SUMS, [f.img.h.custodySum, f.img.h.cashSum]) + WriteRows([4], One(CapRow(f)))
  }

  datatype Fixed = Fixed(head: seq<nat>, h: ImageHeader)

  function FixedFrom(s: seq<Byte>): (r: Fixed)
    requires |s| == FIXED_BYTES
    ensures |r.head| == 5
  {
    WidthsAdd();
    var head := ReadRow(HEAD, s[..24]);
    Fixed(head, HeaderFrom(head, FromOne(ReadRows([4], 16, s[24..88])), ReadRow(SUMS, s[88..104]),
                           FromOne(ReadRows([4], 10, s[104..144]))))
  }

  lemma FixedBack(f: File, total: nat)
    requires NarrowHeader(f.img.h) && total < 0x1_0000_0000_0000_0000
    ensures FixedFrom(FixedBytes(f, total)) == Fixed(HeadRow(f, total), f.img.h)
  {
    var h, s := f.img.h, FixedBytes(f, total);
    RowsSmall(f);
    HeadFits(f, total);
    hide WriteRow, WriteRows, ReadRow, ReadRows, HeadRow, SmallRow, CapRow, Sum, RowFits;
    WidthsAdd();
    var a, b := WriteRow(HEAD, HeadRow(f, total)), WriteRows([4], One(SmallRow(h)));
    var c, d := WriteRow(SUMS, [h.custodySum, h.cashSum]), WriteRows([4], One(CapRow(f)));
    RowBack(HEAD, HeadRow(f, total), []);
    RowsBack([4], One(SmallRow(h)));
    RowBack(SUMS, [h.custodySum, h.cashSum], []);
    RowsBack([4], One(CapRow(f)));
    OneBack(SmallRow(h));
    OneBack(CapRow(f));
    FourParts(a, b, c, d);
    assert a + [] == a && c + [] == c;
    RowsAreHeader(f, total);
  }

  lemma FourParts(a: seq<Byte>, b: seq<Byte>, c: seq<Byte>, d: seq<Byte>)
    requires |a| == 24 && |b| == 64 && |c| == 16 && |d| == 40
    ensures var s := a + b + c + d;
            s[..24] == a && s[24..88] == b && s[88..104] == c && s[104..144] == d
  {
  }

  lemma RowsSmall(f: File)
    requires NarrowHeader(f.img.h)
    ensures TableFits([4], One(SmallRow(f.img.h))) && TableFits([4], One(CapRow(f)))
  {
    SmallFits(SmallRow(f.img.h));
    SmallFits(CapRow(f));
  }

  lemma HeadFits(f: File, total: nat)
    requires NarrowHeader(f.img.h) && total < 0x1_0000_0000_0000_0000
    ensures RowFits(HEAD, HeadRow(f, total)) && RowFits(SUMS, [f.img.h.custodySum, f.img.h.cashSum])
  {
    Widths();
    hide Pow256;
  }

  lemma RowsAreHeader(f: File, total: nat)
    requires NarrowHeader(f.img.h)
    ensures HeaderFrom(HeadRow(f, total), SmallRow(f.img.h), [f.img.h.custodySum, f.img.h.cashSum], CapRow(f))
         == f.img.h
  {
  }

  function RefRow(r: SectionRef): (row: seq<nat>)
    ensures |row| == 5
  {
    [r.off, r.elem, r.count, r.crc, 0]
  }

  function RefFrom(row: seq<nat>): SectionRef {
    if |row| != 5 then SectionRef(0, 0, 0, 0) else SectionRef(row[0], row[1], row[2], row[3] % 0x1_0000_0000)
  }

  function RefRows(rs: seq<SectionRef>): (rows: seq<seq<nat>>)
    ensures |rows| == |rs| && forall i :: 0 <= i < |rs| ==> rows[i] == RefRow(rs[i])
  {
    seq(|rs|, i requires 0 <= i < |rs| => RefRow(rs[i]))
  }

  function RefsFrom(rows: seq<seq<nat>>): (rs: seq<SectionRef>)
    ensures |rs| == |rows|
  {
    seq(|rows|, i requires 0 <= i < |rows| => RefFrom(rows[i]))
  }

  ghost predicate NarrowRefs(rs: seq<SectionRef>) {
    forall i :: 0 <= i < |rs| ==> rs[i].off < 0x1_0000_0000_0000_0000 && Small(rs[i].elem) && Small(rs[i].count)
  }

  lemma RefsBack(rs: seq<SectionRef>)
    requires NarrowRefs(rs)
    ensures RefsFrom(RefRows(rs)) == rs && TableFits(REF, RefRows(rs))
  {
    Widths();
    forall i | 0 <= i < |rs|
      ensures RefFrom(RefRow(rs[i])) == rs[i] && RowFits(REF, RefRow(rs[i]))
    {
    }
  }

  // ---------------------------------------------------------------- the whole file

  function Tables(img: Image): (r: seq<seq<seq<nat>>>)
    ensures |r| == 38
  {
    CustodyTables(img.custody) + CashTables(img.cash) + InstrumentTables(img.instruments) + TradeTablesOf(img.trades)
    + [ExceptionRows(img.exceptions)]
  }

  /** Every number of the image fits the width of its column. */
  ghost predicate Narrow(img: Image) {
    && NarrowHeader(img.h) && NarrowCustody(img.custody) && NarrowCash(img.cash)
    && NarrowInstruments(img.instruments) && NarrowTrades(img.trades) && NarrowExceptions(img.exceptions)
    && NarrowKeys(img.actions) && NarrowKeys(img.income) && Small(|img.actions|) && Small(|img.income|)
    && Small(3 * img.h.custodyCount) && Small(3 * img.h.cashCount)
  }

  lemma {:induction false} FitJoin(a: seq<seq<nat>>, m: seq<nat>, s: seq<seq<seq<nat>>>,
                                   b: seq<seq<nat>>, n: seq<nat>, t: seq<seq<seq<nat>>>)
    requires AllFit(a, m, s) && AllFit(b, n, t)
    ensures AllFit(a + b, m + n, s + t)
  {
    hide TableFits;
    forall k | 0 <= k < |a + b|
      ensures |(s + t)[k]| == (m + n)[k] && TableFits((a + b)[k], (s + t)[k])
    {
      if k >= |a| {
        assert (s + t)[k] == t[k - |a|] && (a + b)[k] == b[k - |a|] && (m + n)[k] == n[k - |a|];
      }
    }
  }

  lemma TablesFit(img: Image)
    requires Narrow(img) && SectionsFit(img)
    ensures AllFit(Layout(), CountsOf(img.h), Tables(img))
  {
    var h := img.h;
    CustodyBack(img.custody, h.custodyCount);
    CashBack(img.cash, h.cashCount);
    InstrumentsBack(img.instruments, h.instrumentCount);
    TradesBackAgain(img.trades, h.tradeCount);
    ExceptionsBack(img.exceptions);
    hide AllFit, CustodyTables, CashTables, InstrumentTables, TradeTablesOf, ExceptionRows;
    FitJoin(CUSTODY, CustodyCounts(h.custodyCount), CustodyTables(img.custody),
            CASH, CashCounts(h.cashCount), CashTables(img.cash));
    FitJoin(CUSTODY + CASH, CustodyCounts(h.custodyCount) + CashCounts(h.cashCount),
            CustodyTables(img.custody) + CashTables(img.cash),
            INSTRUMENTS, InstrumentCounts(h.instrumentCount), InstrumentTables(img.instruments));
    FitJoin(CUSTODY + CASH + INSTRUMENTS,
            CustodyCounts(h.custodyCount) + CashCounts(h.cashCount) + InstrumentCounts(h.instrumentCount),
            CustodyTables(img.custody) + CashTables(img.cash) + InstrumentTables(img.instruments),
            TRADES, TradeCounts(h.tradeCount), TradeTablesOf(img.trades));
    FitJoin(CUSTODY + CASH + INSTRUMENTS + TRADES,
            CustodyCounts(h.custodyCount) + CashCounts(h.cashCount) + InstrumentCounts(h.instrumentCount)
            + TradeCounts(h.tradeCount),
            CustodyTables(img.custody) + CashTables(img.cash) + InstrumentTables(img.instruments)
            + TradeTablesOf(img.trades),
            EXCEPTIONS, [|img.exceptions|], [ExceptionRows(img.exceptions)]);
  }

  /** Columns, links and records from their tables. */
  function ImageFrom(h: ImageHeader, ts: seq<seq<seq<nat>>>, actions: seq<KeyRecord>, income: seq<KeyRecord>): Image
    requires |ts| == 38
  {
    Image(h, CustodyOf(ts[..11]), CashOf(ts[11..17]), InstrumentsOf(ts[17..26]), TradesOf(ts[26..37]),
          ExceptionsFrom(ts[37]), actions, income)
  }

  lemma ImageBack(img: Image)
    requires Narrow(img) && SectionsFit(img)
    ensures ImageFrom(img.h, Tables(img), img.actions, img.income) == img
  {
    var h, ts := img.h, Tables(img);
    CustodyBack(img.custody, h.custodyCount);
    CashBack(img.cash, h.cashCount);
    InstrumentsBack(img.instruments, h.instrumentCount);
    TradesBackAgain(img.trades, h.tradeCount);
    ExceptionsBack(img.exceptions);
    hide AllFit, CustodyTables, CashTables, InstrumentTables, TradeTablesOf, ExceptionRows;
    hide CustodyOf, CashOf, InstrumentsOf, TradesOf, ExceptionsFrom;
    assert ts[..11] == CustodyTables(img.custody) && ts[11..17] == CashTables(img.cash);
    assert ts[17..26] == InstrumentTables(img.instruments) && ts[26..37] == TradeTablesOf(img.trades);
    assert ts[37] == ExceptionRows(img.exceptions);
  }

  /** Every row of every table is as wide as its section says. */
  ghost predicate Rectangular(img: Image) {
    forall k :: 0 <= k < 38 ==> forall i :: 0 <= i < |Tables(img)[k]| ==> |Tables(img)[k][i]| == |Layout()[k]|
  }

  lemma NarrowIsRectangular(img: Image)
    requires Narrow(img) && SectionsFit(img)
    ensures Rectangular(img)
  {
    TablesFit(img);
    hide Tables, Layout, Narrow, SectionsFit;
    TablesBack(Layout(), CountsOf(img.h), Tables(img));
  }

  /** The sections that are columns, as the file holds them. */
  function ColumnSections(img: Image): (ss: seq<Section>)
    requires Rectangular(img)
    ensures |ss| == 38
  {
    hide Tables, Layout;
    SectionsFor(Layout(), Tables(img))
  }

  function KeySection(ks: seq<KeyRecord>): Section {
    Section(16, |ks|, WriteRows(KEY_WIDTHS, KeyRows(ks)))
  }

  /** The sections of a file, all forty. */
  function SectionsOf(img: Image): (ss: seq<Section>)
    requires Rectangular(img)
    ensures |ss| == SECTIONS
  {
    ColumnSections(img) + [KeySection(img.actions), KeySection(img.income)]
  }

  function HeaderBody(f: File, refs: seq<SectionRef>, total: nat): (s: seq<Byte>)
    requires |refs| == SECTIONS
    ensures |s| == HEADER_BYTES - 8
  {
    hide FixedBytes, WriteRows, Sum;
    WidthsAdd();
    FixedBytes(f, total) + WriteRows(REF, RefRows(refs))
  }

  /** The checksum of a header covers it with its own field zero. */
  function HeaderBytes(cs: Checksum, f: File, refs: seq<SectionRef>, total: nat): (s: seq<Byte>)
    requires |refs| == SECTIONS
    ensures |s| == HEADER_BYTES
  {
    hide HeaderBody, Le;
    var body := HeaderBody(f, refs, total);
    body + Le(4, cs(body + Zeros(8))) + Zeros(4)
  }

  /** These bytes are the saved file: header, then every section at its place. What follows is of no concern. */
  ghost predicate IsFileOf(cs: Checksum, m: seq<Byte>, f: File) {
    && Rectangular(f.img)
    && var ss := SectionsOf(f.img);
    && var total := EndAfter(ss, HEADER_BYTES);
    && total <= |m| && total < 0x1_0000_0000_0000_0000
    && m[..HEADER_BYTES] == HeaderBytes(cs, f, Refs(cs, ss, HEADER_BYTES), total)
    && HoldsAll(m, ss, HEADER_BYTES)
  }

  /** Saves the state's image: sections first, into a zeroed buffer, then the header over its front. */
  method SaveImage(cs: Checksum, f: File, room: U64) returns (st: Err, m: seq<Byte>)
    requires Narrow(f.img) && SectionsFit(f.img)
    ensures Rectangular(f.img)
    ensures st == if room < EndAfter(SectionsOf(f.img), HEADER_BYTES) then OutOfRange else Ok
    ensures st == Ok ==> |m| == EndAfter(SectionsOf(f.img), HEADER_BYTES) && IsFileOf(cs, m, f)
  {
    hide HoldsAll, Refs, HeaderBytes, SectionsOf, EndAfter, Narrow, SectionsFit, Rectangular;
    NarrowIsRectangular(f.img);
    var ss := SectionsOf(f.img);
    st, m := SaveSections(ss, HEADER_BYTES, room);
    if st == Ok {
      EndGrows(ss, HEADER_BYTES);
      var header := HeaderBytes(cs, f, Refs(cs, ss, HEADER_BYTES), |m|);
      HeaderOver(m, ss, HEADER_BYTES, header);
      m := Splice(m, 0, header);
    }
  }

  /** The header lies before every section. */
  lemma {:induction false} HeaderOver(m: seq<Byte>, ss: seq<Section>, off: nat, header: seq<Byte>)
    requires HoldsAll(m, ss, off) && |header| <= off && |header| <= |m|
    ensures HoldsAll(Splice(m, 0, header), ss, off)
    ensures Splice(m, 0, header)[..|header|] == header
    decreases |ss|
  {
    hide Splice;
    SplicePlaces(m, 0, header);
    if ss != [] {
      SpliceKeeps(m, 0, header, off, off + |ss[0].data|);
      HeaderOver(m, ss[1..], After(off, |ss[0].data|), header);
    }
  }

  // ---------------------------------------------------------------- reading the file

  datatype KeysRead = Keys(ks: seq<KeyRecord>) | BadKeys(err: Err)

  /** A set of recorded keys: how many there are, only its own reference says. */
  function ReadKeys(cs: Checksum, m: seq<Byte>, r: SectionRef): KeysRead {
    var n := r.elem * r.count;
    if n == 0 then Keys([])
    else if r.elem != 16 then BadKeys(StateCorrupt)
    else if r.off + n > |m| then BadKeys(ShortPayload)
    else if cs(m[r.off..r.off + n]) != r.crc then BadKeys(BadCrc)
    else
      WidthsAdd();
      Keys(KeysFrom(ReadRows(KEY_WIDTHS, r.count, m[r.off..r.off + n])))
  }

  function KeysFit(h: ImageHeader, current: bool, rotation: Date, ks: seq<KeyRecord>): bool {
    InsertAll(Idempotency.TwoGen({}, {}, current, rotation), ks, Idempotency.TableSize(h.cap.actionsPerGen)).Reloaded?
  }

  /** The state a file holds: the header checked, then the sections, then the keys, then what the columns say. */
  function LoadFile(cs: Checksum, m: seq<Byte>): Loading {
    if |m| < HEADER_BYTES then Failed(ShortPayload)
    else
      var fixed := FixedFrom(m[..FIXED_BYTES]);
      var h := fixed.h;
      if fixed.head[0] != IMAGE_MAGIC then Failed(BadMagic)
      else if fixed.head[1] != IMAGE_VERSION then Failed(BadBlockLength)
      else if cs(m[..1104] + Zeros(4) + m[1108..1112]) != FromLe(m[1104..1108]) then Failed(BadCrc)
      else if |m| < fixed.head[3] then Failed(ShortPayload)
      else if !CountsFit(h) then Failed(StateCorrupt)
      else
        WidthsAdd();
        var refs := RefsFrom(ReadRows(REF, SECTIONS, m[FIXED_BYTES..1104]));
        match ReadSections(cs, m, refs[..38], ShapesFor(Layout(), CountsOf(h)))
        case Bad(err) => Failed(err)
        case Sections(datas) =>
          if |datas| != 38 then Failed(StateCorrupt)
          else
            match ReadKeys(cs, m, refs[38])
            case BadKeys(err) => Failed(err)
            case Keys(actions) =>
              if !KeysFit(h, h.actionsCurrent, h.actionsRotation, actions) then Failed(ArenaExhausted)
              else
                match ReadKeys(cs, m, refs[39])
                case BadKeys(err) => Failed(err)
                case Keys(income) =>
                  Load(ImageFrom(h, TablesFrom(Layout(), CountsOf(h), datas), actions, income))
  }

  lemma {:induction false} RefsJoin(cs: Checksum, m: seq<Byte>, a: seq<Section>, b: seq<Section>, off: nat)
    ensures Refs(cs, a + b, off) == Refs(cs, a, off) + Refs(cs, b, EndAfter(a, off))
    ensures EndAfter(a + b, off) == EndAfter(b, EndAfter(a, off))
    ensures HoldsAll(m, a + b, off) ==> HoldsAll(m, a, off) && HoldsAll(m, b, EndAfter(a, off))
    decreases |a|
  {
    hide After, CrcOf, Holds;
    if a == [] {
      assert a + b == b;
    } else {
      assert (a + b)[0] == a[0] && (a + b)[1..] == a[1..] + b;
      RefsJoin(cs, m, a[1..], b, After(off, |a[0].data|));
    }
  }

  lemma {:induction false} RefsNarrow(cs: Checksum, ss: seq<Section>, off: nat)
    requires EndAfter(ss, off) < 0x1_0000_0000_0000_0000
    requires forall k :: 0 <= k < |ss| ==> Small(ss[k].elem) && Small(ss[k].count)
    ensures NarrowRefs(Refs(cs, ss, off))
    decreases |ss|
  {
    hide CrcOf;
    if ss != [] {
      EndGrows(ss[1..], After(off, |ss[0].data|));
      RefsNarrow(cs, ss[1..], After(off, |ss[0].data|));
    }
  }

  lemma HeaderReads(cs: Checksum, f: File, refs: seq<SectionRef>, total: nat, m: seq<Byte>)
    requires |refs| == SECTIONS && |m| >= HEADER_BYTES && m[..HEADER_BYTES] == HeaderBytes(cs, f, refs, total)
    requires NarrowHeader(f.img.h) && total < 0x1_0000_0000_0000_0000 && NarrowRefs(refs)
    ensures FixedFrom(m[..FIXED_BYTES]) == Fixed(HeadRow(f, total), f.img.h)
    ensures cs(m[..1104] + Zeros(4) + m[1108..1112]) == FromLe(m[1104..1108])
    ensures Sum(REF) * SECTIONS == 960 && RefsFrom(ReadRows(REF, SECTIONS, m[FIXED_BYTES..1104])) == refs
  {
    hide HeaderBytes, HeaderBody, FixedBytes, FixedFrom, WriteRows, ReadRows, RefsFrom, RefRows, Sum, Le, FromLe;
    hide HeadRow, NarrowHeader, NarrowRefs, TableFits;
    WidthsAdd();
    FixedBack(f, total);
    RefsBack(refs);
    RowsBack(REF, RefRows(refs));
    HeaderLaid(cs, f, refs, total, m);
    var body := HeaderBody(f, refs, total);
    Widths();
    LeRoundTrip(4, cs(body + Zeros(8)));
    ZerosJoin(body);
  }

  lemma HeaderLaid(cs: Checksum, f: File, refs: seq<SectionRef>, total: nat, m: seq<Byte>)
    requires |refs| == SECTIONS && |m| >= HEADER_BYTES && m[..HEADER_BYTES] == HeaderBytes(cs, f, refs, total)
    ensures m[..FIXED_BYTES] == FixedBytes(f, total) && m[FIXED_BYTES..1104] == WriteRows(REF, RefRows(refs))
    ensures m[..1104] == HeaderBody(f, refs, total) && m[1108..1112] == Zeros(4)
    ensures m[1104..1108] == Le(4, cs(HeaderBody(f, refs, total) + Zeros(8)))
  {
    hide FixedBytes, WriteRows, RefRows, Sum, Le;
    WidthsAdd();
    var check := Le(4, cs(HeaderBody(f, refs, total) + Zeros(8)));
    HeaderParts(m, FixedBytes(f, total), WriteRows(REF, RefRows(refs)), check);
  }

  lemma ZerosJoin(b: seq<Byte>)
    ensures b + Zeros(4) + Zeros(4) == b + Zeros(8)
  {
  }

  lemma HeaderParts(m: seq<Byte>, a: seq<Byte>, b: seq<Byte>, c: seq<Byte>)
    requires |a| == FIXED_BYTES && |b| == 960 && |c| == 4 && |m| >= HEADER_BYTES
    requires m[..HEADER_BYTES] == a + b + c + Zeros(4)
    ensures m[..FIXED_BYTES] == a && m[FIXED_BYTES..1104] == b && m[..1104] == a + b && m[1104..1108] == c
    ensures m[1108..1112] == Zeros(4)
  {
    var h := m[..HEADER_BYTES];
    assert h[..FIXED_BYTES] == a && h[FIXED_BYTES..1104] == b && h[..1104] == a + b && h[1104..1108] == c;
    assert h[1108..1112] == Zeros(4);
  }

  lemma KeysReadExactly(cs: Checksum, m: seq<Byte>, ks: seq<KeyRecord>, off: nat)
    requires NarrowKeys(ks) && Holds(m, off, KeySection(ks).data)
    ensures ReadKeys(cs, m, SectionRef(off, 16, |ks|, CrcOf(cs, KeySection(ks).data))) == Keys(ks)
  {
    WidthsAdd();
    hide Sum, WriteRows, ReadRows, KeyRows, KeysFrom, NarrowKeys, TableFits;
    KeysReadBack(ks);
    RowsBack(KEY_WIDTHS, KeyRows(ks));
    if ks == [] {
      NoKeys();
    }
  }

  lemma NoKeys()
    ensures KeyRows([]) == [] && KeysFrom([]) == []
  {
  }

  ghost predicate SmallWidths(ws: seq<seq<nat>>) {
    forall k :: 0 <= k < |ws| ==> Sum(ws[k]) <= 32
  }

  lemma SumOfOne(w: nat)
    ensures Sum([w]) == w
  {
    assert [w][1..] == [];
  }

  lemma SmallWidthsOnes(ws: seq<seq<nat>>)
    requires forall k :: 0 <= k < |ws| ==> |ws[k]| == 1 && ws[k][0] <= 32
    ensures SmallWidths(ws)
  {
    forall k | 0 <= k < |ws|
      ensures Sum(ws[k]) <= 32
    {
      SumOfOne(ws[k][0]);
      assert ws[k] == [ws[k][0]];
    }
  }

  lemma LayoutSmall()
    ensures SmallWidths(Layout())
  {
    hide Sum;
    SmallWidthsOnes(CUSTODY);
    SmallWidthsOnes(CASH);
    SmallWidthsOnes(INSTRUMENTS);
    SmallWidthsOnes(TRADES);
    ExceptionWidth();
    SmallJoin(CUSTODY, CASH);
    SmallJoin(CUSTODY + CASH, INSTRUMENTS);
    SmallJoin(CUSTODY + CASH + INSTRUMENTS, TRADES);
    SmallJoin(CUSTODY + CASH + INSTRUMENTS + TRADES, EXCEPTIONS);
  }

  lemma ExceptionWidth()
    ensures SmallWidths(EXCEPTIONS)
  {
    var w := EXCEPTIONS[0];
    assert w[1..] == [8, 4, 4, 2, 2, 4] && w[1..][1..] == [4, 4, 2, 2, 4] && w[1..][1..][1..] == [4, 2, 2, 4];
    assert [4, 2, 2, 4][1..] == [2, 2, 4] && [2, 2, 4][1..] == [2, 4] && [2, 4][1..] == [4];
    SumOfOne(4);
  }

  lemma SmallJoin(a: seq<seq<nat>>, b: seq<seq<nat>>)
    requires SmallWidths(a) && SmallWidths(b)
    ensures SmallWidths(a + b)
  {
    hide Sum;
  }

  lemma {:induction false} SectionsForSmall(ws: seq<seq<nat>>, counts: seq<nat>, tables: seq<seq<seq<nat>>>)
    requires AllFit(ws, counts, tables) && SmallWidths(ws) && forall k :: 0 <= k < |ws| ==> Small(counts[k])
    requires forall k :: 0 <= k < |ws| ==> forall i :: 0 <= i < |tables[k]| ==> |tables[k][i]| == |ws[k]|
    ensures forall k :: 0 <= k < |ws| ==>
              Small(SectionsFor(ws, tables)[k].elem) && Small(SectionsFor(ws, tables)[k].count)
    decreases |ws|
  {
    hide WriteRows, TableFits, Sum;
    if ws != [] {
      SectionsForSmall(ws[1..], counts[1..], tables[1..]);
      forall k | 0 <= k < |ws|
        ensures Small(SectionsFor(ws, tables)[k].elem) && Small(SectionsFor(ws, tables)[k].count)
      {
        if k > 0 {
          assert SectionsFor(ws, tables)[k] == SectionsFor(ws[1..], tables[1..])[k - 1];
        }
      }
    }
  }

  lemma CountsSmall(h: ImageHeader)
    requires NarrowHeader(h) && Small(3 * h.custodyCount) && Small(3 * h.cashCount)
    ensures forall k :: 0 <= k < 38 ==> Small(CountsOf(h)[k])
  {
    var a, b := CustodyCounts(h.custodyCount), CashCounts(h.cashCount);
    var c, d := InstrumentCounts(h.instrumentCount), TradeCounts(h.tradeCount);
    var e := [Ledgers.Min(h.exceptionCount, h.cap.exceptions)];
    assert CountsOf(h) == a + b + c + d + e;
    assert Below(a, 0x1_0000_0000) && Below(b, 0x1_0000_0000) && Below(c, 0x1_0000_0000) && Below(d, 0x1_0000_0000);
    BelowJoin(a, b, 0x1_0000_0000);
    BelowJoin(a + b, c, 0x1_0000_0000);
    BelowJoin(a + b + c, d, 0x1_0000_0000);
    BelowJoin(a + b + c + d, e, 0x1_0000_0000);
  }

  lemma BelowJoin(a: seq<nat>, b: seq<nat>, bound: nat)
    requires Below(a, bound) && Below(b, bound)
    ensures Below(a + b, bound)
  {
  }

  lemma ColumnsReadBack(cs: Checksum, m: seq<Byte>, img: Image, off: nat)
    requires Narrow(img) && SectionsFit(img) && Rectangular(img) && HoldsAll(m, ColumnSections(img), off)
    ensures ReadSections(cs, m, Refs(cs, ColumnSections(img), off), ShapesFor(Layout(), CountsOf(img.h)))
         == Sections(Datas(ColumnSections(img)))
    ensures |Datas(ColumnSections(img))| == 38
    ensures TablesFrom(Layout(), CountsOf(img.h), Datas(ColumnSections(img))) == Tables(img)
    ensures forall k :: 0 <= k < 38 ==> Small(ColumnSections(img)[k].elem) && Small(ColumnSections(img)[k].count)
  {
    TablesFit(img);
    CountsSmall(img.h);
    LayoutSmall();
    hide Tables, Layout, CountsOf, Narrow, SectionsFit, SmallWidths, AllFit, HoldsAll, Refs, ReadSections, TablesFrom;
    hide ShapesFor, SectionsFor;
    TablesBack(Layout(), CountsOf(img.h), Tables(img));
    SectionsForSmall(Layout(), CountsOf(img.h), Tables(img));
    SectionsBack(cs, m, ColumnSections(img), off);
  }

  /** A saved file read back is the image that was saved, loaded: whatever follows the file, whatever the checksum. */
  lemma FileBack(cs: Checksum, m: seq<Byte>, f: File)
    requires Narrow(f.img) && SectionsFit(f.img) && CountsFit(f.img.h) && IsFileOf(cs, m, f)
    ensures LoadFile(cs, m) == Load(f.img)
  {
    hide Narrow, SectionsFit, ColumnSections, KeySection, HoldsAll, Refs, EndAfter, FixedFrom, HeaderBytes, Layout;
    hide CountsOf, ReadSections, ReadKeys, ShapesFor, Tables, TablesFrom, ImageFrom, Load, CountsFit, ReadRows;
    hide RefsFrom;
    hide Rectangular, Datas;
    var img, h := f.img, f.img.h;
    var a, b := ColumnSections(img), [KeySection(img.actions), KeySection(img.income)];
    var refs := Refs(cs, a + b, HEADER_BYTES);
    RefsJoin(cs, m, a, b, HEADER_BYTES);
    ColumnsReadBack(cs, m, img, HEADER_BYTES);
    NarrowParts(img);
    TwoKeys(cs, m, img, EndAfter(a, HEADER_BYTES));
    RefsNarrow(cs, a + b, HEADER_BYTES);
    HeaderReads(cs, f, refs, EndAfter(a + b, HEADER_BYTES), m);
    ImageBack(img);
    assert refs[..38] == Refs(cs, a, HEADER_BYTES);
    if !KeysFit(h, h.actionsCurrent, h.actionsRotation, img.actions) {
      LoadKeysFirst(img);
    }
  }

  /** These bytes are an image of this state. */
  ghost predicate FileOfState(cs: Checksum, m: seq<Byte>, f: File, w: Whole) {
    ImageOf(w, f.img) && Narrow(f.img) && IsFileOf(cs, m, f)
  }

  /** Saved and loaded, byte for byte: the file of any image of a state, whatever follows it, gives that state back
      whole, as long as every number fits the width of its column. */
  lemma FileLoadsBack(cs: Checksum, m: seq<Byte>, f: File, w: Whole)
    requires WellFormed(w.d) && |w.first| == |w.d.accounts| && |w.next| == |w.d.trades| && FileOfState(cs, m, f, w)
    ensures LoadFile(cs, m) == Loaded(w)
  {
    hide WellFormed, ImageOf, Narrow, Rectangular, IsFileOf, LoadFile, Load, SectionsOf, EndAfter;
    ImageIsSized(w, f.img);
    FileBack(cs, m, f);
    LoadBack(w, f.img);
  }

  lemma ImageIsSized(w: Whole, img: Image)
    requires WellFormed(w.d) && |w.first| == |w.d.accounts| && |w.next| == |w.d.trades| && ImageOf(w, img)
    ensures SectionsFit(img) && CountsFit(img.h)
  {
    hide Flatten, CustodySum, CashSum, CustodyFromColumns, CashFromColumns, InstrumentsFromColumns, TradesFromColumns;
    CustodyColumnsBack(w.d.custody);
    CashColumnsBack(w.d.accounts, w.first);
    InstrumentColumnsBack(w.d.instruments);
    TradeColumnsBack(w.d.trades, w.next);
  }

  lemma NarrowParts(img: Image)
    requires Narrow(img)
    ensures NarrowHeader(img.h) && NarrowKeys(img.actions) && NarrowKeys(img.income)
    ensures KeySection(img.actions).elem == KeySection(img.income).elem == 16
    ensures Small(KeySection(img.actions).count) && Small(KeySection(img.income).count)
  {
    hide KeyRows, WriteRows;
  }

  /** Keys there is no room for are found out before the rest. */
  lemma LoadKeysFirst(img: Image)
    requires CountsFit(img.h) && SectionsFit(img)
             && !KeysFit(img.h, img.h.actionsCurrent, img.h.actionsRotation, img.actions)
    ensures Load(img) == Failed(ArenaExhausted)
  {
  }

  lemma TwoKeys(cs: Checksum, m: seq<Byte>, img: Image, off: nat)
    requires NarrowKeys(img.actions) && NarrowKeys(img.income)
    requires HoldsAll(m, [KeySection(img.actions), KeySection(img.income)], off)
    ensures var refs := Refs(cs, [KeySection(img.actions), KeySection(img.income)], off);
            ReadKeys(cs, m, refs[0]) == Keys(img.actions) && ReadKeys(cs, m, refs[1]) == Keys(img.income)
  {
    var k0, k1 := KeySection(img.actions), KeySection(img.income);
    var ss := [k0, k1];
    assert ss[1..] == [k1] && [k1][1..] == [];
    KeysReadExactly(cs, m, img.actions, off);
    KeysReadExactly(cs, m, img.income, After(off, |k0.data|));
    hide ReadKeys, KeySection, After;
    assert HoldsAll(m, [k1], After(off, |k0.data|));
  }
}
