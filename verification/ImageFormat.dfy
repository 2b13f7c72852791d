/** The recovery image byte by byte: each field of the header, each section and each entry of a column, where a reader
    of the format looks for it. */
module ImageFormat {
  import opened Bytes
  import opened Status
  import opened Ledgers
  import opened Applying
  import opened ImageBytes
  import opened StateImages
  import opened ImageFiles

  // ---------------------------------------------------------------- a number in a table

  /** Where column `j` of a row begins. */
  function Upto(ws: seq<nat>, j: nat): nat
    requires j <= |ws|
  {
    if j == 0 then 0 else ws[0] + Upto(ws[1..], j - 1)
  }

  lemma HoldsBehind(a: seq<Byte>, b: seq<Byte>, off: nat, x: seq<Byte>)
    requires Holds(b, off, x)
    ensures Holds(a + b, |a| + off, x)
  {
    assert (a + b)[|a|..] == b;
    SliceSlice(a + b, |a|, |a + b|, off, off + |x|);
  }

  lemma HoldsWithin(m: seq<Byte>, off: nat, b: seq<Byte>, at: nat, x: seq<Byte>)
    requires Holds(m, off, b) && Holds(b, at, x)
    ensures Holds(m, off + at, x)
  {
    HoldsSlice(m, off, b, at, at + |x|);
  }

  lemma {:induction false} RowCell(ws: seq<nat>, row: seq<nat>, j: nat)
    requires |ws| == |row| && j < |ws|
    ensures Holds(WriteRow(ws, row), Upto(ws, j), Le(ws[j], row[j]))
  {
    hide Le;
    var head, tail := Le(ws[0], row[0]), WriteRow(ws[1..], row[1..]);
    if j > 0 {
      RowCell(ws[1..], row[1..], j - 1);
      hide Holds;
      HoldsBehind(head, tail, Upto(ws[1..], j - 1), Le(ws[j], row[j]));
    }
  }

  lemma {:induction false} RowsCell(ws: seq<nat>, rows: seq<seq<nat>>, i: nat, j: nat)
    requires i < |rows| && j < |ws| && forall r :: 0 <= r < |rows| ==> |rows[r]| == |ws|
    ensures Holds(WriteRows(ws, rows), ImageFiles.Sum(ws) * i + Upto(ws, j), Le(ws[j], rows[i][j]))
  {
    hide Le, WriteRow, Upto;
    var head, tail := WriteRow(ws, rows[0]), WriteRows(ws, rows[1..]);
    var at := Upto(ws, j);
    if i == 0 {
      RowCell(ws, rows[0], j);
      HoldsFront(head, tail, at, Le(ws[j], rows[0][j]));
    } else {
      RowsCell(ws, rows[1..], i - 1, j);
      HoldsBehind(head, tail, ImageFiles.Sum(ws) * (i - 1) + at, Le(ws[j], rows[i][j]));
      OneMore(ImageFiles.Sum(ws), i);
    }
  }

  lemma HoldsFront(a: seq<Byte>, b: seq<Byte>, off: nat, x: seq<Byte>)
    requires Holds(a, off, x)
    ensures Holds(a + b, off, x)
  {
    assert (a + b)[off..off + |x|] == a[off..off + |x|];
  }

  // ---------------------------------------------------------------- a section in the file

  /** A section is in its place, and its reference says so. */
  lemma {:induction false} InPlace(cs: Checksum, m: seq<Byte>, ss: seq<Section>, off: nat, k: nat)
    requires HoldsAll(m, ss, off) && k < |ss|
    ensures var r := Refs(cs, ss, off)[k];
            && r == SectionRef(r.off, ss[k].elem, ss[k].count, CrcOf(cs, ss[k].data))
            && off <= r.off <= EndAfter(ss, off) && Holds(m, r.off, ss[k].data)
    decreases |ss|
  {
    hide After, CrcOf;
    EndGrows(ss[1..], After(off, |ss[0].data|));
    if k > 0 {
      InPlace(cs, m, ss[1..], After(off, |ss[0].data|), k - 1);
    }
  }

  lemma {:induction false} SectionFor(ws: seq<seq<nat>>, tables: seq<seq<seq<nat>>>, k: nat)
    requires |ws| == |tables| && k < |ws|
    requires forall t :: 0 <= t < |ws| ==> forall i :: 0 <= i < |tables[t]| ==> |tables[t][i]| == |ws[t]|
    ensures SectionsFor(ws, tables)[k] == Section(ImageFiles.Sum(ws[k]), |tables[k]|, WriteRows(ws[k], tables[k]))
    decreases |ws|
  {
    hide ImageFiles.Sum, WriteRows;
    if k > 0 {
      SectionFor(ws[1..], tables[1..], k - 1);
    }
  }

  /** Where the header says that section `k` begins. */
  function SectionAt(m: seq<Byte>, k: nat): nat
    requires 152 + 24 * k <= |m|
  {
    FromLe(m[144 + 24 * k..152 + 24 * k])
  }

  /** What the header says of section `k`: how wide its entries are, how many, and their checksum. */
  ghost predicate Announces(m: seq<Byte>, k: nat, elem: nat, count: nat, crc: U32) {
    && Holds(m, 152 + 24 * k, Le(4, elem)) && Holds(m, 156 + 24 * k, Le(4, count))
    && Holds(m, 160 + 24 * k, Le(4, crc))
  }

  lemma RefWidths()
    ensures ImageFiles.Sum(REF) == 24
    ensures Upto(REF, 0) == 0 && Upto(REF, 1) == 8 && Upto(REF, 2) == 12 && Upto(REF, 3) == 16
  {
    WidthsAdd();
    assert REF[1..] == [4, 4, 4, 4] && [4, 4, 4, 4][1..] == [4, 4, 4] && [4, 4, 4][1..] == [4, 4];
  }

  /** Every section begins where the header says, with the bytes it announces. */
  lemma SectionPlaced(cs: Checksum, m: seq<Byte>, f: File, k: nat)
    requires IsFileOf(cs, m, f) && k < SECTIONS
    ensures HEADER_BYTES <= |m| && Holds(m, SectionAt(m, k), SectionsOf(f.img)[k].data)
    ensures var s := SectionsOf(f.img)[k];
            Announces(m, k, s.elem, s.count, CrcOf(cs, s.data))
  {
    hide SectionsOf, HeaderBytes, Rectangular, HoldsAll, Refs, EndAfter, ImageFiles.Sum, CrcOf, Upto, Le, FromLe;
    hide WriteRows;
    var ss := SectionsOf(f.img);
    var refs, total := Refs(cs, ss, HEADER_BYTES), EndAfter(ss, HEADER_BYTES);
    EndGrows(ss, HEADER_BYTES);
    InPlace(cs, m, ss, HEADER_BYTES, k);
    HeaderLaid(cs, f, refs, total, m);
    RefWidths();
    Widths();
    RefHeld(m, refs, k, 0);
    RefHeld(m, refs, k, 1);
    RefHeld(m, refs, k, 2);
    RefHeld(m, refs, k, 3);
    LeRoundTrip(8, refs[k].off);
  }

  lemma RefHeld(m: seq<Byte>, refs: seq<SectionRef>, k: nat, j: nat)
    requires |m| >= HEADER_BYTES && |refs| == SECTIONS && k < SECTIONS && j < |REF| && ImageFiles.Sum(REF) == 24
    requires m[FIXED_BYTES..1104] == WriteRows(REF, RefRows(refs))
    ensures Holds(m, 144 + 24 * k + Upto(REF, j), Le(REF[j], RefRow(refs[k])[j]))
  {
    hide Le, WriteRows, Upto, ImageFiles.Sum;
    RowsCell(REF, RefRows(refs), k, j);
    HoldsWithin(m, FIXED_BYTES, WriteRows(REF, RefRows(refs)), 24 * k + Upto(REF, j), Le(REF[j], RefRow(refs[k])[j]));
  }

  /** Entry `i` of section `k`, `width` bytes wide, is the number `v`. */
  ghost predicate Entry(m: seq<Byte>, k: nat, width: nat, i: nat, v: nat) {
    k < SECTIONS && HEADER_BYTES <= |m| && Holds(m, SectionAt(m, k) + width * i, Le(width, v))
  }

  lemma ColumnPlaced(cs: Checksum, m: seq<Byte>, f: File, k: nat)
    requires IsFileOf(cs, m, f) && k < 38
    ensures HEADER_BYTES <= |m| && forall i :: 0 <= i < |Tables(f.img)[k]| ==> |Tables(f.img)[k][i]| == |Layout()[k]|
    ensures Holds(m, SectionAt(m, k), WriteRows(Layout()[k], Tables(f.img)[k]))
  {
    hide HeaderBytes, HoldsAll, Refs, EndAfter, ImageFiles.Sum, WriteRows, Tables, Layout, SectionAt, Announces;
    hide KeySection, Holds;
    SectionPlaced(cs, m, f, k);
    SectionFor(Layout(), Tables(f.img), k);
    assert SectionsOf(f.img)[k] == ColumnSections(f.img)[k];
  }

  lemma ColumnEntry(cs: Checksum, m: seq<Byte>, f: File, k: nat, w: nat, xs: seq<nat>, i: nat)
    requires IsFileOf(cs, m, f) && k < 38 && Layout()[k] == [w] && Tables(f.img)[k] == One(xs) && i < |xs|
    ensures Entry(m, k, w, i, xs[i])
  {
    hide IsFileOf, WriteRows, Tables, Layout, SectionAt, Le, Holds;
    ColumnPlaced(cs, m, f, k);
    RowsCell([w], One(xs), i, 0);
    SumOfOne(w);
    hide ImageFiles.Sum;
    HoldsWithin(m, SectionAt(m, k), WriteRows([w], One(xs)), w * i, Le(w, xs[i]));
  }

  // ---------------------------------------------------------------- a row of the ledger

  /** Three numbers in a row of a column. */
  ghost predicate Three64(m: seq<Byte>, k: nat, i: nat, t: Three) {
    Entry(m, k, 8, 3 * i, Wrap64(t.d0)) && Entry(m, k, 8, 3 * i + 1, Wrap64(t.d1))
    && Entry(m, k, 8, 3 * i + 2, Wrap64(t.d2))
  }

  /** The eleven sections of positions. */
  ghost predicate PositionAt(m: seq<Byte>, i: nat, p: Position) {
    && Entry(m, 0, 8, i, Wrap64(p.b.available))
    && Three64(m, 1, i, p.b.pendingBuy) && Three64(m, 2, i, p.b.pendingSell)
    && Entry(m, 3, 8, i, Wrap64(p.b.overdueBuy)) && Entry(m, 4, 8, i, Wrap64(p.b.overdueSell))
    && Entry(m, 5, 8, i, Wrap64(p.b.blocked)) && Entry(m, 6, 8, i, Wrap64(p.b.leftovers))
    && Entry(m, 7, 8, i, Wrap64(p.b.avgPrice))
    && Entry(m, 8, 4, i, p.account) && Entry(m, 9, 4, i, p.instrument)
    && Entry(m, 10, 1, i, if p.b.shortAllowed then 1 else 0)
  }

  /** The six sections of accounts. */
  ghost predicate AccountAt(m: seq<Byte>, i: nat, a: Account, first: nat) {
    && Entry(m, 11, 8, i, Wrap64(a.m.cash)) && Three64(m, 12, i, a.m.pending)
    && Entry(m, 13, 8, i, Wrap64(a.m.overdue)) && Entry(m, 14, 8, i, Wrap64(a.m.income))
    && Entry(m, 15, 8, i, a.document) && Entry(m, 16, 4, i, first)
  }

  /** The nine sections of instruments. */
  ghost predicate InstrumentAt(m: seq<Byte>, i: nat, x: Instrument) {
    && Entry(m, 17, 4, i, x.id) && Entry(m, 18, 12, i, FromLe(x.symbol)) && Entry(m, 19, 12, i, FromLe(x.isin))
    && Entry(m, 20, 1, i, x.kind) && Entry(m, 21, 4, i, x.factor) && Entry(m, 22, 4, i, x.lot)
    && Entry(m, 23, 8, i, Wrap64(x.closing)) && Entry(m, 24, 8, i, Wrap64(x.previous)) && Entry(m, 25, 4, i, x.date)
  }

  /** The states in the order of the format. */
  function StateNumber(s: TradeState): nat {
    if s == Absent then 0 else if s == Executed then 1 else if s == Allocated then 2 else if s == Netted then 3
    else if s == Settled then 4 else if s == DeliveryFailed then 5 else 6
  }

  /** The eleven sections of trades. */
  ghost predicate TradeAt(m: seq<Byte>, i: nat, t: Trade, next: nat) {
    && Entry(m, 26, 8, i, t.id) && Entry(m, 27, 8, i, t.note)
    && Entry(m, 28, 4, i, t.account) && Entry(m, 29, 4, i, t.instrument)
    && Entry(m, 30, 8, i, Wrap64(t.qty)) && Entry(m, 31, 8, i, Wrap64(t.price)) && Entry(m, 32, 8, i, Wrap64(t.cash))
    && Entry(m, 33, 4, i, t.date) && Entry(m, 34, 1, i, t.side)
    && Entry(m, 35, 1, i, StateNumber(t.state))
    && Entry(m, 36, 4, i, next)
  }

  /** One exception, thirty-two bytes. */
  ghost predicate ExceptionAt(m: seq<Byte>, i: nat, x: ExceptionRecord) {
    && HEADER_BYTES <= |m|
    && var at := SectionAt(m, 37) + 32 * i;
    && Holds(m, at, Le(8, x.document)) && Holds(m, at + 8, Le(8, Wrap64(x.delta)))
    && Holds(m, at + 16, Le(4, x.instrument)) && Holds(m, at + 20, Le(4, x.date))
    && Holds(m, at + 24, Le(2, Code(x.err)))
  }

  /** One recorded key, sixteen bytes. */
  ghost predicate KeyAt(m: seq<Byte>, k: nat, i: nat, r: KeyRecord) {
    && HEADER_BYTES <= |m| && k < SECTIONS
    && var at := SectionAt(m, k) + 16 * i;
    && Holds(m, at, Le(8, r.key.action)) && Holds(m, at + 8, Le(4, r.key.account))
    && Holds(m, at + 12, Le(4, r.generation))
  }

  lemma FlatNumbers(ts: seq<Three>, i: nat)
    requires i < |ts|
    ensures var xs := Signs(Flatten(ts));
            && |xs| == 3 * |ts| && xs[3 * i] == Wrap64(ts[i].d0) && xs[3 * i + 1] == Wrap64(ts[i].d1)
            && xs[3 * i + 2] == Wrap64(ts[i].d2)
  {
    hide Flatten, Wrap64;
    FlattenAt(ts, i);
  }

  /** The three numbers of row `i`, one after the other. */
  lemma ThreeEntries(cs: Checksum, m: seq<Byte>, f: File, k: nat, xs: seq<nat>, i: nat, t: Three)
    requires IsFileOf(cs, m, f) && k < 38 && Layout()[k] == [8] && Tables(f.img)[k] == One(xs) && 3 * i + 2 < |xs|
    requires xs[3 * i] == Wrap64(t.d0) && xs[3 * i + 1] == Wrap64(t.d1) && xs[3 * i + 2] == Wrap64(t.d2)
    ensures Three64(m, k, i, t)
  {
    hide IsFileOf, Tables, Layout, Entry, Wrap64, One;
    ColumnEntry(cs, m, f, k, 8, xs, 3 * i);
    ColumnEntry(cs, m, f, k, 8, xs, 3 * i + 1);
    ColumnEntry(cs, m, f, k, 8, xs, 3 * i + 2);
  }

  /** Which column is which section. */
  lemma CustodyColumn(img: Image, k: nat)
    requires k < 11
    ensures Layout()[k] == CUSTODY[k] && Tables(img)[k] == CustodyTables(img.custody)[k]
  {
    hide CustodyTables, CashTables, InstrumentTables, TradeTablesOf, ExceptionRows;
  }

  lemma CashColumn(img: Image, k: nat)
    requires k < 6
    ensures Layout()[11 + k] == CASH[k] && Tables(img)[11 + k] == CashTables(img.cash)[k]
  {
    hide CustodyTables, CashTables, InstrumentTables, TradeTablesOf, ExceptionRows;
  }

  lemma InstrumentColumn(img: Image, k: nat)
    requires k < 9
    ensures Layout()[17 + k] == INSTRUMENTS[k] && Tables(img)[17 + k] == InstrumentTables(img.instruments)[k]
  {
    hide CustodyTables, CashTables, InstrumentTables, TradeTablesOf, ExceptionRows;
  }

  lemma TradeColumn(img: Image, k: nat)
    requires k < 11
    ensures Layout()[26 + k] == TRADES[k] && Tables(img)[26 + k] == TradeTablesOf(img.trades)[k]
  {
    hide CustodyTables, CashTables, InstrumentTables, TradeTablesOf, ExceptionRows;
  }

  lemma ExceptionColumn(img: Image)
    ensures Layout()[37] == EXCEPTIONS[0] && Tables(img)[37] == ExceptionRows(img.exceptions)
  {
    hide CustodyTables, CashTables, InstrumentTables, TradeTablesOf, ExceptionRows;
  }

  /** One number of one width. */
  lemma CustodyEntry(cs: Checksum, m: seq<Byte>, f: File, k: nat, w: nat, xs: seq<nat>, i: nat)
    requires IsFileOf(cs, m, f) && k < 11 && CUSTODY[k] == [w] && CustodyTables(f.img.custody)[k] == One(xs)
    requires i < |xs|
    ensures Entry(m, k, w, i, xs[i])
  {
    hide IsFileOf, Entry, Layout, Tables, CustodyTables;
    CustodyColumn(f.img, k);
    ColumnEntry(cs, m, f, k, w, xs, i);
  }

  lemma PositionInBytes(cs: Checksum, m: seq<Byte>, f: File, rows: seq<Position>, i: nat)
    requires IsFileOf(cs, m, f) && f.img.custody == CustodyToColumns(rows) && i < |rows|
    ensures PositionAt(m, i, rows[i])
  {
    hide IsFileOf, Entry, Wrap64, Flatten, Three64, Layout, Tables;
    var c, n := f.img.custody, |rows|;
    CustodyEntry(cs, m, f, 0, 8, Signs(c.available), i);
    CustodyColumn(f.img, 1);
    CustodyColumn(f.img, 2);
    FlatNumbers(seq(n, j requires 0 <= j < n => rows[j].b.pendingBuy), i);
    ThreeEntries(cs, m, f, 1, Signs(c.pendingBuy), i, rows[i].b.pendingBuy);
    FlatNumbers(seq(n, j requires 0 <= j < n => rows[j].b.pendingSell), i);
    ThreeEntries(cs, m, f, 2, Signs(c.pendingSell), i, rows[i].b.pendingSell);
    CustodyEntry(cs, m, f, 3, 8, Signs(c.overdueBuy), i);
    CustodyEntry(cs, m, f, 4, 8, Signs(c.overdueSell), i);
    CustodyEntry(cs, m, f, 5, 8, Signs(c.blocked), i);
    CustodyEntry(cs, m, f, 6, 8, Signs(c.leftovers), i);
    CustodyEntry(cs, m, f, 7, 8, Signs(c.avgPrice), i);
    CustodyEntry(cs, m, f, 8, 4, c.account, i);
    CustodyEntry(cs, m, f, 9, 4, c.instrument, i);
    CustodyEntry(cs, m, f, 10, 1, Flags(c.flags), i);
  }

  lemma CashEntry(cs: Checksum, m: seq<Byte>, f: File, k: nat, w: nat, xs: seq<nat>, i: nat)
    requires IsFileOf(cs, m, f) && k < 6 && CASH[k] == [w] && CashTables(f.img.cash)[k] == One(xs) && i < |xs|
    ensures Entry(m, 11 + k, w, i, xs[i])
  {
    hide IsFileOf, Entry, Layout, Tables, CashTables;
    CashColumn(f.img, k);
    ColumnEntry(cs, m, f, 11 + k, w, xs, i);
  }

  lemma AccountInBytes(cs: Checksum, m: seq<Byte>, f: File, rows: seq<Account>, first: seq<nat>, i: nat)
    requires IsFileOf(cs, m, f) && f.img.cash == CashToColumns(rows, first) && i < |rows| == |first|
    ensures AccountAt(m, i, rows[i], first[i])
  {
    hide IsFileOf, Entry, Wrap64, Flatten, Three64, Layout, Tables;
    var c, n := f.img.cash, |rows|;
    CashEntry(cs, m, f, 0, 8, Signs(c.cash), i);
    CashColumn(f.img, 1);
    FlatNumbers(seq(n, j requires 0 <= j < n => rows[j].m.pending), i);
    ThreeEntries(cs, m, f, 12, Signs(c.pending), i, rows[i].m.pending);
    CashEntry(cs, m, f, 2, 8, Signs(c.overdue), i);
    CashEntry(cs, m, f, 3, 8, Signs(c.income), i);
    CashEntry(cs, m, f, 4, 8, c.document, i);
    CashEntry(cs, m, f, 5, 4, c.firstTrade, i);
  }

  lemma InstrumentEntry(cs: Checksum, m: seq<Byte>, f: File, k: nat, w: nat, xs: seq<nat>, i: nat)
    requires IsFileOf(cs, m, f) && k < 9 && INSTRUMENTS[k] == [w] && i < |xs|
    requires InstrumentTables(f.img.instruments)[k] == One(xs)
    ensures Entry(m, 17 + k, w, i, xs[i])
  {
    hide IsFileOf, Entry, Layout, Tables, InstrumentTables;
    InstrumentColumn(f.img, k);
    ColumnEntry(cs, m, f, 17 + k, w, xs, i);
  }

  lemma InstrumentInBytes(cs: Checksum, m: seq<Byte>, f: File, rows: seq<Instrument>, i: nat)
    requires IsFileOf(cs, m, f) && f.img.instruments == InstrumentsToColumns(rows) && i < |rows|
    ensures InstrumentAt(m, i, rows[i])
  {
    hide IsFileOf, Entry, Wrap64, Layout, Tables, FromLe;
    var c := f.img.instruments;
    InstrumentEntry(cs, m, f, 0, 4, c.id, i);
    TextsAre(c.symbol, i);
    TextsAre(c.isin, i);
    InstrumentEntry(cs, m, f, 1, 12, Texts(c.symbol), i);
    InstrumentEntry(cs, m, f, 2, 12, Texts(c.isin), i);
    InstrumentEntry(cs, m, f, 3, 1, c.kind, i);
    InstrumentEntry(cs, m, f, 4, 4, c.factor, i);
    InstrumentEntry(cs, m, f, 5, 4, c.lot, i);
    InstrumentEntry(cs, m, f, 6, 8, Signs(c.closing), i);
    InstrumentEntry(cs, m, f, 7, 8, Signs(c.previous), i);
    InstrumentEntry(cs, m, f, 8, 4, c.date, i);
  }

  lemma TextsAre(ss: seq<seq<Byte>>, i: nat)
    requires i < |ss|
    ensures Texts(ss)[i] == FromLe(ss[i])
  {
  }

  lemma TradeEntry(cs: Checksum, m: seq<Byte>, f: File, k: nat, w: nat, xs: seq<nat>, i: nat)
    requires IsFileOf(cs, m, f) && k < 11 && TRADES[k] == [w] && i < |xs|
    requires TradeTablesOf(f.img.trades)[k] == One(xs)
    ensures Entry(m, 26 + k, w, i, xs[i])
  {
    hide IsFileOf, Entry, Layout, Tables, TradeTablesOf;
    TradeColumn(f.img, k);
    ColumnEntry(cs, m, f, 26 + k, w, xs, i);
  }

  lemma TradeCells(rows: seq<Trade>, next: seq<nat>, i: nat)
    requires i < |rows| == |next|
    ensures var c, t := TradesToColumns(rows, next), rows[i];
            && i < |c.id| && c.id[i] == t.id && i < |c.note| && c.note[i] == t.note
            && i < |c.account| && c.account[i] == t.account && i < |c.instrument| && c.instrument[i] == t.instrument
            && i < |c.qty| && c.qty[i] == t.qty && i < |c.price| && c.price[i] == t.price
            && i < |c.cash| && c.cash[i] == t.cash && i < |c.date| && c.date[i] == t.date
            && i < |c.side| && c.side[i] == t.side && i < |c.state| && c.state[i] == t.state
            && i < |c.next| && c.next[i] == next[i]
  {
  }

  lemma TradeInBytes(cs: Checksum, m: seq<Byte>, f: File, rows: seq<Trade>, next: seq<nat>, i: nat)
    requires IsFileOf(cs, m, f) && f.img.trades == TradesToColumns(rows, next) && i < |rows| == |next|
    ensures TradeAt(m, i, rows[i], next[i])
  {
    hide IsFileOf, Entry, Wrap64, Layout, Tables, StateNumber, States, TradesToColumns;
    TradeCells(rows, next, i);
    var c := f.img.trades;
    TradeEntry(cs, m, f, 0, 8, c.id, i);
    TradeEntry(cs, m, f, 1, 8, c.note, i);
    TradeEntry(cs, m, f, 2, 4, c.account, i);
    TradeEntry(cs, m, f, 3, 4, c.instrument, i);
    TradeEntry(cs, m, f, 4, 8, Signs(c.qty), i);
    TradeEntry(cs, m, f, 5, 8, Signs(c.price), i);
    TradeEntry(cs, m, f, 6, 8, Signs(c.cash), i);
    TradeEntry(cs, m, f, 7, 4, c.date, i);
    TradeEntry(cs, m, f, 8, 1, c.side, i);
    StateIs(c.state, i);
    TradeEntry(cs, m, f, 9, 1, States(c.state), i);
    TradeEntry(cs, m, f, 10, 4, c.next, i);
  }

  lemma StateIs(ss: seq<TradeState>, i: nat)
    requires i < |ss|
    ensures States(ss)[i] == StateNumber(ss[i])
  {
  }

  lemma ExceptionInBytes(cs: Checksum, m: seq<Byte>, f: File, i: nat)
    requires IsFileOf(cs, m, f) && i < |f.img.exceptions|
    ensures ExceptionAt(m, i, f.img.exceptions[i])
  {
    hide IsFileOf, Layout, Tables, SectionAt, Le, WriteRows, Holds;
    var x, ws := f.img.exceptions[i], EXCEPTIONS[0];
    var rows := ExceptionRows(f.img.exceptions);
    ExceptionColumn(f.img);
    ColumnPlaced(cs, m, f, 37);
    ExceptionOffsets();
    forall j | 0 <= j < 5
      ensures Holds(m, SectionAt(m, 37) + 32 * i + Upto(ws, j), Le(ws[j], ExceptionRow(x)[j]))
    {
      RowsCell(ws, rows, i, j);
      HoldsWithin(m, SectionAt(m, 37), WriteRows(ws, rows), 32 * i + Upto(ws, j), Le(ws[j], rows[i][j]));
    }
  }

  lemma ExceptionOffsets()
    ensures var ws := EXCEPTIONS[0];
            && ImageFiles.Sum(ws) == 32 && Upto(ws, 0) == 0 && Upto(ws, 1) == 8 && Upto(ws, 2) == 16
            && Upto(ws, 3) == 20 && Upto(ws, 4) == 24
  {
    var ws := EXCEPTIONS[0];
    assert ws[1..] == [8, 4, 4, 2, 2, 4] && ws[1..][1..] == [4, 4, 2, 2, 4] && ws[1..][1..][1..] == [4, 2, 2, 4];
    assert [4, 2, 2, 4][1..] == [2, 2, 4] && [2, 2, 4][1..] == [2, 4] && [2, 4][1..] == [4];
    SumOfOne(4);
  }

  lemma KeyInBytes(cs: Checksum, m: seq<Byte>, f: File, ks: seq<KeyRecord>, k: nat, i: nat)
    requires IsFileOf(cs, m, f) && i < |ks|
    requires (k == 38 && ks == f.img.actions) || (k == 39 && ks == f.img.income)
    ensures KeyAt(m, k, i, ks[i])
  {
    hide IsFileOf, Layout, Tables, SectionAt, Le, WriteRows, Holds, Announces, ColumnSections;
    SectionPlaced(cs, m, f, k);
    KeyOffsets();
    forall j | 0 <= j < 3
      ensures Holds(m, SectionAt(m, k) + 16 * i + Upto(KEY_WIDTHS, j), Le(KEY_WIDTHS[j], KeyRow(ks[i])[j]))
    {
      RowsCell(KEY_WIDTHS, KeyRows(ks), i, j);
      HoldsWithin(m, SectionAt(m, k), WriteRows(KEY_WIDTHS, KeyRows(ks)), 16 * i + Upto(KEY_WIDTHS, j),
                  Le(KEY_WIDTHS[j], KeyRow(ks[i])[j]));
    }
  }

  lemma KeyOffsets()
    ensures ImageFiles.Sum(KEY_WIDTHS) == 16
    ensures Upto(KEY_WIDTHS, 0) == 0 && Upto(KEY_WIDTHS, 1) == 8 && Upto(KEY_WIDTHS, 2) == 12
  {
    WidthsAdd();
    assert KEY_WIDTHS[1..] == [4, 4];
  }

  /** A saved state, row by row: every position, account, instrument, trade, exception and key is where the format puts
      it, in the bytes the format gives it. */
  lemma StateInBytes(cs: Checksum, m: seq<Byte>, f: File, w: Whole)
    requires FileOfState(cs, m, f, w) && |w.first| == |w.d.accounts| && |w.next| == |w.d.trades|
    ensures forall i :: 0 <= i < |w.d.custody| ==> PositionAt(m, i, w.d.custody[i])
    ensures forall i :: 0 <= i < |w.d.accounts| ==> AccountAt(m, i, w.d.accounts[i], w.first[i])
    ensures forall i :: 0 <= i < |w.d.instruments| ==> InstrumentAt(m, i, w.d.instruments[i])
    ensures forall i :: 0 <= i < |w.d.trades| ==> TradeAt(m, i, w.d.trades[i], w.next[i])
    ensures forall i :: 0 <= i < |w.d.exceptions| ==> ExceptionAt(m, i, w.d.exceptions[i])
    ensures forall i :: 0 <= i < |f.img.actions| ==> KeyAt(m, 38, i, f.img.actions[i])
    ensures forall i :: 0 <= i < |f.img.income| ==> KeyAt(m, 39, i, f.img.income[i])
  {
    hide IsFileOf, PositionAt, AccountAt, InstrumentAt, TradeAt, ExceptionAt, KeyAt, Narrow, Lists;
    hide CustodyToColumns, CashToColumns, InstrumentsToColumns, TradesToColumns, HeaderOf;
    forall i | 0 <= i < |w.d.custody|
      ensures PositionAt(m, i, w.d.custody[i])
    {
      PositionInBytes(cs, m, f, w.d.custody, i);
    }
    forall i | 0 <= i < |w.d.accounts|
      ensures AccountAt(m, i, w.d.accounts[i], w.first[i])
    {
      AccountInBytes(cs, m, f, w.d.accounts, w.first, i);
    }
    forall i | 0 <= i < |w.d.instruments|
      ensures InstrumentAt(m, i, w.d.instruments[i])
    {
      InstrumentInBytes(cs, m, f, w.d.instruments, i);
    }
    forall i | 0 <= i < |w.d.trades|
      ensures TradeAt(m, i, w.d.trades[i], w.next[i])
    {
      TradeInBytes(cs, m, f, w.d.trades, w.next, i);
    }
    forall i | 0 <= i < |w.d.exceptions|
      ensures ExceptionAt(m, i, w.d.exceptions[i])
    {
      ExceptionInBytes(cs, m, f, i);
    }
    forall i | 0 <= i < |f.img.actions|
      ensures KeyAt(m, 38, i, f.img.actions[i])
    {
      KeyInBytes(cs, m, f, f.img.actions, 38, i);
    }
    forall i | 0 <= i < |f.img.income|
      ensures KeyAt(m, 39, i, f.img.income[i])
    {
      KeyInBytes(cs, m, f, f.img.income, 39, i);
    }
  }

  // ---------------------------------------------------------------- the header

  /** Number `i` of a run of four-byte numbers. */
  ghost predicate Fours(m: seq<Byte>, off: nat, xs: seq<nat>) {
    forall i :: 0 <= i < |xs| ==> Holds(m, off + 4 * i, Le(4, xs[i]))
  }

  lemma FoursHeld(m: seq<Byte>, off: nat, xs: seq<nat>)
    requires Holds(m, off, WriteRows([4], One(xs)))
    ensures Fours(m, off, xs)
  {
    hide Le, WriteRows, Holds;
    WidthsAdd();
    forall i | 0 <= i < |xs|
      ensures Holds(m, off + 4 * i, Le(4, xs[i]))
    {
      RowsCell([4], One(xs), i, 0);
      HoldsWithin(m, off, WriteRows([4], One(xs)), 4 * i, Le(4, xs[i]));
    }
  }

  /** The header of a file: what it is and how long, the LSN of the state, its days, its counters, its idempotency sets,
      its anchors, what it was made for, and last its checksum. */
  ghost predicate HeaderAt(cs: Checksum, m: seq<Byte>, f: File, total: nat) {
    var h, cap := f.img.h, f.img.h.cap;
    && HEADER_BYTES <= |m|
    && Holds(m, 0, Le(4, 0x324D_5352)) && Holds(m, 4, Le(2, 2)) && Holds(m, 6, Le(2, f.partition))
    && Holds(m, 8, Le(8, total)) && Holds(m, 16, Le(8, h.appliedLsn))
    && Holds(m, 24, Le(4, h.businessDate)) && Holds(m, 28, Le(4, h.prevBusinessDate))
    && Holds(m, 32, Le(4, h.window.d0)) && Holds(m, 36, Le(4, h.window.d1)) && Holds(m, 40, Le(4, h.window.d2))
    && Holds(m, 44, Le(4, if h.diverged then 1 else 0))
    && Holds(m, 48, Le(4, h.custodyCount)) && Holds(m, 52, Le(4, h.cashCount))
    && Holds(m, 56, Le(4, h.instrumentCount)) && Holds(m, 60, Le(4, h.tradeCount))
    && Holds(m, 64, Le(4, h.exceptionCount)) && Holds(m, 68, Le(4, h.exceptionDropped))
    && Holds(m, 72, Le(4, if h.actionsCurrent then 1 else 0)) && Holds(m, 76, Le(4, h.actionsRotation))
    && Holds(m, 80, Le(4, if h.incomeCurrent then 1 else 0)) && Holds(m, 84, Le(4, h.incomeRotation))
    && Holds(m, 88, Le(8, h.custodySum)) && Holds(m, 96, Le(8, h.cashSum))
    && Holds(m, 104, Le(4, cap.accounts)) && Holds(m, 108, Le(4, cap.instruments))
    && Holds(m, 112, Le(4, cap.positions)) && Holds(m, 116, Le(4, cap.trades))
    && Holds(m, 120, Le(4, cap.actionsPerGen)) && Holds(m, 124, Le(4, cap.exceptions))
    && Holds(m, 128, Le(4, f.outboxSlots)) && Holds(m, 132, Le(4, f.outboxBytes))
    && Holds(m, 136, Le(4, Wrap32(cap.windowDays)))
    && Holds(m, 1104, Le(4, cs(m[..1104] + Zeros(8))))
  }

  lemma HeaderInBytes(cs: Checksum, m: seq<Byte>, f: File)
    requires IsFileOf(cs, m, f)
    ensures HeaderAt(cs, m, f, EndAfter(SectionsOf(f.img), HEADER_BYTES))
  {
    hide SectionsOf, HeaderBytes, Rectangular, HoldsAll, Refs, EndAfter, Le, FromLe, WriteRow, WriteRows;
    hide ImageFiles.Sum, HeaderBody, FixedBytes, Fours, Holds;
    var ss := SectionsOf(f.img);
    var total := EndAfter(ss, HEADER_BYTES);
    EndGrows(ss, HEADER_BYTES);
    HeaderLaid(cs, f, Refs(cs, ss, HEADER_BYTES), total, m);
    FixedParts(m, f, total);
    HeadHeld(m, f, total);
    SumsHeld(m, f);
    SmallHeld(m, f);
    CapHeld(m, f);
    SliceHeld(m, 1104, Le(4, cs(m[..1104] + Zeros(8))));
  }

  lemma SliceHeld(m: seq<Byte>, off: nat, b: seq<Byte>)
    requires off + |b| <= |m| && m[off..off + |b|] == b
    ensures Holds(m, off, b)
  {
  }

  lemma HeadHeld(m: seq<Byte>, f: File, total: nat)
    requires Holds(m, 0, WriteRow(HEAD, HeadRow(f, total)))
    ensures Holds(m, 0, Le(4, 0x324D_5352)) && Holds(m, 4, Le(2, 2)) && Holds(m, 6, Le(2, f.partition))
    ensures Holds(m, 8, Le(8, total)) && Holds(m, 16, Le(8, f.img.h.appliedLsn))
  {
    hide Le, WriteRow, Holds;
    var row := HeadRow(f, total);
    assert HEAD[1..] == [2, 2, 8, 8] && [2, 2, 8, 8][1..] == [2, 8, 8] && [2, 8, 8][1..] == SUMS && SUMS[1..] == [8];
    forall j | 0 <= j < 5
      ensures Holds(m, Upto(HEAD, j), Le(HEAD[j], row[j]))
    {
      RowCell(HEAD, row, j);
      HoldsWithin(m, 0, WriteRow(HEAD, row), Upto(HEAD, j), Le(HEAD[j], row[j]));
    }
    assert Upto(HEAD, 0) == 0 && Upto(HEAD, 1) == 4 && Upto(HEAD, 2) == 6 && Upto(HEAD, 3) == 8 && Upto(HEAD, 4) == 16;
  }

  lemma SumsHeld(m: seq<Byte>, f: File)
    requires Holds(m, 88, WriteRow(SUMS, [f.img.h.custodySum, f.img.h.cashSum]))
    ensures Holds(m, 88, Le(8, f.img.h.custodySum)) && Holds(m, 96, Le(8, f.img.h.cashSum))
  {
    hide Le, WriteRow, Holds;
    var row: seq<nat> := [f.img.h.custodySum, f.img.h.cashSum];
    RowCell(SUMS, row, 0);
    RowCell(SUMS, row, 1);
    HoldsWithin(m, 88, WriteRow(SUMS, row), Upto(SUMS, 0), Le(8, row[0]));
    HoldsWithin(m, 88, WriteRow(SUMS, row), Upto(SUMS, 1), Le(8, row[1]));
  }

  lemma SmallHeld(m: seq<Byte>, f: File)
    requires Fours(m, 24, SmallRow(f.img.h))
    ensures var h := f.img.h;
            && Holds(m, 24, Le(4, h.businessDate)) && Holds(m, 28, Le(4, h.prevBusinessDate))
            && Holds(m, 32, Le(4, h.window.d0)) && Holds(m, 36, Le(4, h.window.d1)) && Holds(m, 40, Le(4, h.window.d2))
            && Holds(m, 44, Le(4, if h.diverged then 1 else 0))
            && Holds(m, 48, Le(4, h.custodyCount)) && Holds(m, 52, Le(4, h.cashCount))
            && Holds(m, 56, Le(4, h.instrumentCount)) && Holds(m, 60, Le(4, h.tradeCount))
            && Holds(m, 64, Le(4, h.exceptionCount)) && Holds(m, 68, Le(4, h.exceptionDropped))
            && Holds(m, 72, Le(4, if h.actionsCurrent then 1 else 0)) && Holds(m, 76, Le(4, h.actionsRotation))
            && Holds(m, 80, Le(4, if h.incomeCurrent then 1 else 0)) && Holds(m, 84, Le(4, h.incomeRotation))
  {
    hide Le, Holds;
    var row := SmallRow(f.img.h);
    assert row[0] + row[1] + row[2] + row[3] + row[4] + row[5] + row[6] + row[7] >= 0;
    assert row[8] + row[9] + row[10] + row[11] + row[12] + row[13] + row[14] + row[15] >= 0;
  }

  lemma CapHeld(m: seq<Byte>, f: File)
    requires Fours(m, 104, CapRow(f))
    ensures var cap := f.img.h.cap;
            && Holds(m, 104, Le(4, cap.accounts)) && Holds(m, 108, Le(4, cap.instruments))
            && Holds(m, 112, Le(4, cap.positions)) && Holds(m, 116, Le(4, cap.trades))
            && Holds(m, 120, Le(4, cap.actionsPerGen)) && Holds(m, 124, Le(4, cap.exceptions))
            && Holds(m, 128, Le(4, f.outboxSlots)) && Holds(m, 132, Le(4, f.outboxBytes))
            && Holds(m, 136, Le(4, Wrap32(cap.windowDays)))
  {
    hide Le, Holds, Wrap32;
    var row := CapRow(f);
    assert row[0] + row[1] + row[2] + row[3] + row[4] + row[5] + row[6] + row[7] + row[8] >= 0;
  }

  lemma FixedParts(m: seq<Byte>, f: File, total: nat)
    requires |m| >= HEADER_BYTES && m[..FIXED_BYTES] == FixedBytes(f, total)
    ensures Fours(m, 24, SmallRow(f.img.h)) && Fours(m, 104, CapRow(f))
    ensures Holds(m, 0, WriteRow(HEAD, HeadRow(f, total)))
    ensures Holds(m, 88, WriteRow(SUMS, [f.img.h.custodySum, f.img.h.cashSum]))
  {
    hide Le, WriteRow, WriteRows, ImageFiles.Sum, HeadRow, SmallRow, CapRow, Fours;
    WidthsAdd();
    var a, b := WriteRow(HEAD, HeadRow(f, total)), WriteRows([4], One(SmallRow(f.img.h)));
    var c, d := WriteRow(SUMS, [f.img.h.custodySum, f.img.h.cashSum]), WriteRows([4], One(CapRow(f)));
    assert Holds(m, 0, a + b + c + d);
    HoldsSplit(m, 0, a + b + c, d);
    HoldsSplit(m, 0, a + b, c);
    HoldsSplit(m, 0, a, b);
    FoursHeld(m, 24, SmallRow(f.img.h));
    FoursHeld(m, 104, CapRow(f));
  }
}
