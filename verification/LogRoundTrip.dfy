/** Writer and reader of the log are inverse, across padding, torn tails and arbitrary tails. */
module LogRoundTrip {
  import opened Bytes
  import opened WalFormat
  import opened SegmentReading

  /** A written log is records with, after each commit group, zeros up to the block. */
  datatype Item = Rec(r: Record) | Pad

  type Group = seq<Record>

  /** The byte string `m` holds the encoding of `r` at `off`. */
  ghost predicate RecordIn(cs: Checksum, m: seq<Byte>, off: nat, r: Record) {
    Fits(r) && Holds(m, off, Encode(cs, r))
  }

  ghost predicate RecordHeld(g: Segment, off: nat, r: Record) {
    RecordIn(g.cs, g.bytes, off, r)
  }

  ghost predicate ZerosHeld(g: Segment, off: nat, to: nat) {
    off <= to <= |g.bytes| && forall i :: off <= i < to ==> g.bytes[i] == 0
  }

  function ItemEnd(i: Item, off: nat, block: Block): (r: nat)
    ensures off <= r
  {
    match i
    case Rec(r) => off + RecordBytes(|r.payload|)
    case Pad => PadToBlock(off, block)
  }

  lemma ItemEndWhole(i: Item, off: nat, block: Block)
    requires Whole(off)
    ensures Whole(ItemEnd(i, off, block))
  {
    if i.Rec? {
      WholeSum(off, RecordBytes(|i.r.payload|));
    }
  }

  /** The segment's bytes from `off` to `end` are exactly the items, one after the other. */
  ghost predicate WrittenAt(g: Segment, items: seq<Item>, off: nat, end: nat) {
    if items == [] then off == end
    else
      var next := ItemEnd(items[0], off, g.block);
      && (match items[0]
          case Rec(r) => RecordHeld(g, off, r)
          case Pad => ZerosHeld(g, off, next))
      && WrittenAt(g, items[1..], next, end)
  }

  /** The records of a log, each with the offset it was written at. */
  function Entries(items: seq<Item>, off: nat, block: Block): (es: seq<Entry>)
    ensures |es| <= |items|
  {
    if items == [] then []
    else
      var rest := Entries(items[1..], ItemEnd(items[0], off, block), block);
      if items[0].Rec? then [Entry(off, items[0].r)] + rest else rest
  }

  /** All records carry the segment's epoch and are numbered from `expected`. */
  ghost predicate Numbered(items: seq<Item>, epoch: U32, expected: nat) {
    if items == [] then true
    else match items[0]
      case Rec(r) => r.epoch == epoch && r.lsn == expected && Numbered(items[1..], epoch, expected + 1)
      case Pad => Numbered(items[1..], epoch, expected)
  }

  /** The offset at which writing resumes after reading `es`. */
  function ResumeAfter(es: seq<Entry>, resume: nat, block: Block): nat {
    if es == [] then resume else PadToBlock(End(es[|es| - 1]), block)
  }

  // ---------------------------------------------------------------- one step of the reader

  lemma ScanRecord(g: Segment, off: nat, r: Record, expected: U64)
    requires RecordHeld(g, off, r)
    requires r.epoch == g.epoch && (expected == 0 || expected == r.lsn)
    ensures Scan(g, off, expected) == Got(Entry(off, r))
    ensures End(Entry(off, r)) <= |g.bytes|
  {
    EncodedFields(g.cs, r, g.bytes, off);
  }

  /** What the reader makes of a record that is whole: another epoch's and one out of turn end the reading, each with
      its reason. */
  lemma RecordJudged(g: Segment, off: nat, r: Record, expected: U64)
    requires RecordHeld(g, off, r)
    ensures Scan(g, off, expected)
         == if r.epoch != g.epoch then Stopped(EpochMismatch)
            else if expected != 0 && expected != r.lsn then Stopped(LsnGap)
            else Got(Entry(off, r))
  {
    EncodedFields(g.cs, r, g.bytes, off);
  }

  /** And of one whose checksum does not match. */
  lemma DamageJudged(g: Segment, off: nat, r: Record, crc: U32, expected: U64)
    requires Fits(r) && r.epoch == g.epoch && crc != g.cs(Covered(r)) && off + RecordBytes(|r.payload|) <= |g.bytes|
    requires Holds(g.bytes, off, Header(r, crc) + r.payload)
    ensures Scan(g, off, expected) == Stopped(BadCrc)
  {
    HoldsSplit(g.bytes, off, Header(r, crc), r.payload);
    HeaderHeld(r, crc, g.bytes, off);
    CoveredParsed(r, crc, g.bytes, off);
    hide Header, Covered, CoveredAt, FieldAt, RecordBytes;
  }

  lemma ScanPadding(g: Segment, off: nat, expected: U64)
    requires Whole(off)
    requires ZerosHeld(g, off, PadToBlock(off, g.block))
    ensures Scan(g, off, expected) == Scan(g, PadToBlock(off, g.block), expected)
  {
    var m, to := g.bytes, PadToBlock(off, g.block);
    if to != off {
      if |m| - off < HDR_BYTES {
        ZeroSuffix(m, off, to);
      } else {
        WholeGap(off, to);
        ZeroField(m, off, to);
      }
    }
  }

  lemma ZeroField(m: seq<Byte>, off: nat, to: nat)
    requires off + 8 <= to <= |m| && forall i :: off <= i < to ==> m[i] == 0
    ensures FieldAt(m, off, 0, 8) == 0
  {
    var s := m[off + 0..off + 0 + 8];
    forall i | 0 <= i < 8
      ensures s[i] == 0
    {
      assert s[i] == m[off + i];
    }
    FromLeZero(s);
    hide FromLe;
  }

  lemma ZeroSuffix(m: seq<Byte>, off: nat, to: nat)
    requires off <= to <= |m| && forall i :: off <= i < to ==> m[i] == 0
    ensures AllZero(m[off..]) == AllZero(m[to..])
  {
    assert forall i :: to <= i < |m| ==> m[i] == m[off..][i - off] == m[to..][i - to];
    assert forall i :: off <= i < |m| ==> m[i] == m[off..][i - off];
  }

  function Prepend(es: seq<Entry>, r: Replay): Replay {
    r.(entries := es + r.entries)
  }

  ghost predicate ReadsTo(g: Segment, off: nat, expected: U64, resume: nat, result: Replay) {
    ReadAll(g, off, expected, resume) == result
  }

  /** Reading from `off` yields `es`, then whatever reading from `end` yields. */
  ghost predicate Reads(g: Segment, off: nat, expected: nat, resume: nat, es: seq<Entry>, end: nat) {
    && expected + |es| < 0x1_0000_0000_0000_0000
    && forall rest :: ReadsTo(g, end, expected + |es|, ResumeAfter(es, resume, g.block), rest)
                      ==> ReadsTo(g, off, expected, resume, Prepend(es, rest))
  }

  lemma ReadsNothing(g: Segment, off: nat, expected: U64, resume: nat)
    ensures Reads(g, off, expected, resume, [], off)
  {
    assert forall rest :: Prepend([], rest) == rest;
  }

  lemma ReadsRecord(g: Segment, off: nat, r: Record, expected: U64, resume: nat, es: seq<Entry>, end: nat)
    requires RecordHeld(g, off, r) && r.epoch == g.epoch && expected == r.lsn
    requires var next := End(Entry(off, r)); Reads(g, next, expected + 1, PadToBlock(next, g.block), es, end)
    ensures Reads(g, off, expected, resume, [Entry(off, r)] + es, end)
  {
    hide Scan, ReadAll, Encode, PadToBlock;
    var e := Entry(off, r);
    var resume1 := PadToBlock(End(e), g.block);
    var after := ResumeAfter([e] + es, resume, g.block);
    assert after == ResumeAfter(es, resume1, g.block);
    forall rest | ReadsTo(g, end, expected + |[e] + es|, after, rest)
      ensures ReadsTo(g, off, expected, resume, Prepend([e] + es, rest))
    {
      assert ReadsTo(g, End(e), expected + 1, resume1, Prepend(es, rest));
      ReadStep(g, off, r, expected, resume, Prepend(es, rest));
      PrependTwice(e, es, rest);
    }
  }

  lemma ReadStep(g: Segment, off: nat, r: Record, expected: U64, resume: nat, rest: Replay)
    requires RecordHeld(g, off, r) && r.epoch == g.epoch && expected == r.lsn
    requires var next := End(Entry(off, r));
             ReadsTo(g, next, NextLsn(expected), PadToBlock(next, g.block), rest)
    ensures ReadsTo(g, off, expected, resume, Prepend([Entry(off, r)], rest))
  {
    ScanRecord(g, off, r, expected);
  }

  lemma PrependTwice(e: Entry, es: seq<Entry>, r: Replay)
    ensures Prepend([e], Prepend(es, r)) == Prepend([e] + es, r)
  {
    assert [e] + (es + r.entries) == [e] + es + r.entries;
  }

  lemma ReadsPad(g: Segment, off: nat, expected: U64, resume: nat, es: seq<Entry>, end: nat)
    requires Whole(off)
    requires ZerosHeld(g, off, PadToBlock(off, g.block))
    requires Reads(g, PadToBlock(off, g.block), expected, resume, es, end)
    ensures Reads(g, off, expected, resume, es, end)
  {
    hide ReadsTo, ReadAll, Scan;
    var to := PadToBlock(off, g.block);
    forall rest | ReadsTo(g, to, expected, resume, rest)
      ensures ReadsTo(g, off, expected, resume, rest)
    {
      SkipPad(g, off, expected, resume, rest);
    }
  }

  /** Reading over a written log yields its records, then goes on after it, whatever follows. */
  lemma {:induction false} ReadItems(g: Segment, items: seq<Item>, off: nat, end: nat, expected: nat, resume: nat)
    requires Whole(off) && WrittenAt(g, items, off, end)
    requires 1 <= expected && expected + |Entries(items, off, g.block)| < 0x1_0000_0000_0000_0000
    requires Numbered(items, g.epoch, expected)
    ensures Reads(g, off, expected, resume, Entries(items, off, g.block), end)
    decreases |items|
  {
    hide RecordIn, ReadsTo, Reads, PadToBlock, ZerosHeld;
    if items == [] {
      ReadsNothing(g, off, expected, resume);
    } else {
      var next := ItemEnd(items[0], off, g.block);
      ItemEndWhole(items[0], off, g.block);
      var es := Entries(items[1..], next, g.block);
      match items[0]
      case Rec(r) =>
        ReadItems(g, items[1..], next, end, expected + 1, PadToBlock(next, g.block));
        ReadsRecord(g, off, r, expected, resume, es, end);
      case Pad =>
        ReadItems(g, items[1..], next, end, expected, resume);
        ReadsPad(g, off, expected, resume, es, end);
    }
  }

  // ---------------------------------------------------------------- torn tails

  /** How many of the written records end at or before byte `n`. */
  function Fitting(es: seq<Entry>, n: nat): (k: nat)
    ensures k <= |es|
    ensures forall i :: 0 <= i < k ==> End(es[i]) <= n
    ensures k < |es| ==> n < End(es[k])
  {
    if es == [] || n < End(es[0]) then 0 else 1 + Fitting(es[1..], n)
  }

  /** `cut` is `full` truncated at `n`. */
  ghost predicate Truncation(cut: Segment, full: Segment, n: nat) {
    n <= |full.bytes| && cut == full.(bytes := full.bytes[..n])
  }

  lemma {:induction false} EntriesAfter(items: seq<Item>, off: nat, block: Block, n: nat)
    requires n <= off
    ensures Fitting(Entries(items, off, block), n) == 0
  {
    if items != [] && items[0].Pad? {
      EntriesAfter(items[1..], PadToBlock(off, block), block, n);
    }
  }

  /** Reading a truncated log yields exactly the records that wholly fit, and stops on the cut. */
  ghost predicate ReadsFitting(cut: Segment, off: nat, expected: U64, resume: nat, es: seq<Entry>, n: nat) {
    exists stop, last :: (stop == Clean || stop == ShortSegment)
                         && ReadsTo(cut, off, expected, resume, Replay(es[..Fitting(es, n)], stop, last))
  }

  lemma {:induction false} TruncatedItems(full: Segment, cut: Segment, n: nat, items: seq<Item>, off: nat,
                                          end: nat, expected: nat, resume: nat)
    requires Whole(off) && Truncation(cut, full, n) && n <= end && WrittenAt(full, items, off, end)
    requires 1 <= expected && expected + |Entries(items, off, full.block)| < 0x1_0000_0000_0000_0000
    requires Numbered(items, full.epoch, expected)
    ensures ReadsFitting(cut, off, expected, resume, Entries(items, off, full.block), n)
    decreases |items|
  {
    hide RecordIn, PadToBlock, ReadsFitting, Scan, ZerosHeld;
    var es := Entries(items, off, full.block);
    if n <= off {
      EntriesAfter(items, off, full.block, n);
      ScanPastEnd(cut, off, expected);
      NoneFit(cut, off, expected, resume, es, n);
    } else {
      var next := ItemEnd(items[0], off, full.block);
      ItemEndWhole(items[0], off, full.block);
      match items[0]
      case Rec(r) =>
        if next <= n {
          TruncatedItems(full, cut, n, items[1..], next, end, expected + 1, PadToBlock(next, full.block));
          CutKeepsRecord(full, cut, n, off, r);
          FitRecord(cut, off, r, expected, resume, Entries(items[1..], next, full.block), n);
        } else {
          TornRecord(full, cut, n, off, r, expected);
          NoneFit(cut, off, expected, resume, es, n);
        }
      case Pad =>
        if next <= n {
          TruncatedItems(full, cut, n, items[1..], next, end, expected, resume);
          CutKeepsZeros(full, cut, n, off, next);
          FitPad(cut, off, expected, resume, es, n);
        } else {
          TornPadding(full, cut, n, off, expected);
          EntriesAfter(items[1..], next, full.block, n);
          NoneFit(cut, off, expected, resume, es, n);
        }
    }
  }

  lemma NoneFit(g: Segment, off: nat, expected: U64, resume: nat, es: seq<Entry>, n: nat)
    requires Fitting(es, n) == 0
    requires Scan(g, off, expected) == Stopped(Clean) || Scan(g, off, expected) == Stopped(ShortSegment)
    ensures ReadsFitting(g, off, expected, resume, es, n)
  {
    var why := Scan(g, off, expected).reason;
    assert es[..0] == [];
    assert ReadsTo(g, off, expected, resume, Replay(es[..Fitting(es, n)], why, resume));
  }

  lemma FitRecord(g: Segment, off: nat, r: Record, expected: U64, resume: nat, es: seq<Entry>, n: nat)
    requires RecordHeld(g, off, r) && r.epoch == g.epoch && expected == r.lsn && End(Entry(off, r)) <= n
    requires var next := End(Entry(off, r));
             ReadsFitting(g, next, NextLsn(expected), PadToBlock(next, g.block), es, n)
    ensures ReadsFitting(g, off, expected, resume, [Entry(off, r)] + es, n)
  {
    var next := End(Entry(off, r));
    var stop, last :| (stop == Clean || stop == ShortSegment)
      && ReadsTo(g, next, NextLsn(expected), PadToBlock(next, g.block), Replay(es[..Fitting(es, n)], stop, last));
    ReadStep(g, off, r, expected, resume, Replay(es[..Fitting(es, n)], stop, last));
    var all := [Entry(off, r)] + es;
    assert all[1..] == es;
    assert all[..Fitting(all, n)] == [Entry(off, r)] + es[..Fitting(es, n)];
  }

  lemma FitPad(g: Segment, off: nat, expected: U64, resume: nat, es: seq<Entry>, n: nat)
    requires Whole(off) && ZerosHeld(g, off, PadToBlock(off, g.block))
    requires ReadsFitting(g, PadToBlock(off, g.block), expected, resume, es, n)
    ensures ReadsFitting(g, off, expected, resume, es, n)
  {
    var stop, last :| (stop == Clean || stop == ShortSegment)
      && ReadsTo(g, PadToBlock(off, g.block), expected, resume, Replay(es[..Fitting(es, n)], stop, last));
    SkipPad(g, off, expected, resume, Replay(es[..Fitting(es, n)], stop, last));
  }

  lemma SkipPad(g: Segment, off: nat, expected: U64, resume: nat, result: Replay)
    requires Whole(off) && ZerosHeld(g, off, PadToBlock(off, g.block))
    requires ReadsTo(g, PadToBlock(off, g.block), expected, resume, result)
    ensures ReadsTo(g, off, expected, resume, result)
  {
    ScanPadding(g, off, expected);
  }

  lemma CutKeepsRecord(full: Segment, cut: Segment, n: nat, off: nat, r: Record)
    requires Truncation(cut, full, n) && RecordHeld(full, off, r) && End(Entry(off, r)) <= n
    ensures RecordHeld(cut, off, r)
  {
    SliceSlice(full.bytes, 0, n, off, off + |Encode(full.cs, r)|);
  }

  lemma CutKeepsZeros(full: Segment, cut: Segment, n: nat, off: nat, to: nat)
    requires Truncation(cut, full, n) && ZerosHeld(full, off, to) && to <= n
    ensures ZerosHeld(cut, off, to)
  {
    assert forall i :: off <= i < to ==> cut.bytes[i] == full.bytes[i];
  }

  lemma ScanPastEnd(g: Segment, off: nat, expected: U64)
    requires |g.bytes| <= off
    ensures Scan(g, off, expected) == Stopped(Clean)
  {
  }

  /** A record cut short is never accepted: the reader stops as on a short segment. */
  lemma TornRecord(full: Segment, cut: Segment, n: nat, off: nat, r: Record, expected: U64)
    requires Truncation(cut, full, n) && RecordHeld(full, off, r)
    requires r.epoch == full.epoch && off < n < End(Entry(off, r))
    ensures Scan(cut, off, expected) == Stopped(ShortSegment)
  {
    EncodedFields(full.cs, r, full.bytes, off);
    MagicByte(full.bytes, off);
    if n - off < HDR_BYTES {
      assert cut.bytes[off..][0] == full.bytes[off] == 0x52;
    } else {
      SliceSlice(full.bytes, 0, n, off + 0, off + 0 + 8);
      SliceSlice(full.bytes, 0, n, off + 0, off + 0 + 4);
      SliceSlice(full.bytes, 0, n, off + 24, off + 24 + 4);
      SliceSlice(full.bytes, 0, n, off + 30, off + 30 + 2);
    }
  }

  lemma TornPadding(full: Segment, cut: Segment, n: nat, off: nat, expected: U64)
    requires Whole(off) && Truncation(cut, full, n) && off < n < PadToBlock(off, full.block)
    requires ZerosHeld(full, off, PadToBlock(off, full.block))
    ensures Scan(cut, off, expected) == Stopped(Clean)
  {
    var m := cut.bytes;
    assert forall i :: off <= i < n ==> m[i] == full.bytes[i] == 0;
    if n - off < HDR_BYTES {
      assert AllZero(m[off..]);
    } else {
      FromLeZero(m[off + 0..off + 0 + 8]);
    }
  }

  // ---------------------------------------------------------------- commit groups

  /** From `off` to `end` the segment holds `items`: the entries `es`, numbered from `expected`. */
  ghost predicate Wrote(g: Segment, items: seq<Item>, off: nat, end: nat, es: seq<Entry>, expected: nat) {
    WrittenAt(g, items, off, end) && Entries(items, off, g.block) == es && Numbered(items, g.epoch, expected)
  }

  lemma {:induction false} WrittenConcat(g: Segment, a: seq<Item>, b: seq<Item>, off: nat, mid: nat, end: nat)
    requires WrittenAt(g, a, off, mid) && WrittenAt(g, b, mid, end)
    ensures WrittenAt(g, a + b, off, end)
    decreases |a|
  {
    hide RecordIn, PadToBlock, ZerosHeld;
    if a == [] {
      assert a + b == b;
    } else {
      WrittenConcat(g, a[1..], b, ItemEnd(a[0], off, g.block), mid, end);
      assert (a + b)[1..] == a[1..] + b;
    }
  }

  lemma {:induction false} EntriesConcat(g: Segment, a: seq<Item>, b: seq<Item>, off: nat, mid: nat)
    requires WrittenAt(g, a, off, mid)
    ensures Entries(a + b, off, g.block) == Entries(a, off, g.block) + Entries(b, mid, g.block)
    decreases |a|
  {
    hide RecordIn, PadToBlock, ZerosHeld;
    if a == [] {
      assert a + b == b;
    } else {
      var next := ItemEnd(a[0], off, g.block);
      EntriesConcat(g, a[1..], b, next, mid);
      assert (a + b)[1..] == a[1..] + b;
      if a[0].Rec? {
        ConsConcat(Entry(off, a[0].r), Entries(a[1..], next, g.block), Entries(b, mid, g.block));
      }
    }
  }

  lemma ConsConcat(e: Entry, a: seq<Entry>, b: seq<Entry>)
    ensures [e] + (a + b) == ([e] + a) + b
  {
  }

  lemma {:induction false} NumberedConcat(a: seq<Item>, b: seq<Item>, epoch: U32, off: nat, block: Block, expected: nat)
    requires Numbered(a, epoch, expected)
    requires Numbered(b, epoch, expected + |Entries(a, off, block)|)
    ensures Numbered(a + b, epoch, expected)
    decreases |a|
  {
    hide PadToBlock;
    if a == [] {
      assert a + b == b;
    } else {
      var e := expected + if a[0].Rec? then 1 else 0;
      NumberedConcat(a[1..], b, epoch, ItemEnd(a[0], off, block), block, e);
      assert (a + b)[1..] == a[1..] + b;
    }
  }

  lemma WroteConcat(g: Segment, a: seq<Item>, b: seq<Item>, off: nat, mid: nat, end: nat, ea: seq<Entry>,
                    eb: seq<Entry>, expected: nat)
    requires Wrote(g, a, off, mid, ea, expected) && Wrote(g, b, mid, end, eb, expected + |ea|)
    ensures Wrote(g, a + b, off, end, ea + eb, expected)
  {
    hide WrittenAt, Entries, Numbered;
    WrittenConcat(g, a, b, off, mid, end);
    EntriesConcat(g, a, b, off, mid);
    NumberedConcat(a, b, g.epoch, off, g.block, expected);
  }

  lemma WroteNothing(g: Segment, off: nat, expected: nat)
    ensures Wrote(g, [], off, off, [], expected)
  {
  }

  lemma WroteRec(g: Segment, e: Entry, expected: nat)
    requires RecordHeld(g, e.at, e.record) && e.record.epoch == g.epoch && e.record.lsn == expected
    ensures Wrote(g, [Rec(e.record)], e.at, End(e), [e], expected)
  {
    assert [Rec(e.record)][1..] == [];
    assert Entries([], End(e), g.block) == [];
    assert WrittenAt(g, [], End(e), End(e)) && Numbered([], g.epoch, expected + 1);
  }

  lemma WrotePad(g: Segment, off: nat, expected: nat)
    requires ZerosHeld(g, off, PadToBlock(off, g.block))
    ensures Wrote(g, [Pad], off, PadToBlock(off, g.block), [], expected)
  {
    var end := PadToBlock(off, g.block);
    assert [Pad][1..] == [];
    assert Entries([], end, g.block) == [];
    assert WrittenAt(g, [], end, end) && Numbered([], g.epoch, expected);
  }

  /** A commit group as written: its file offset, its first LSN, where each record lies, and its padded end. */
  datatype Chunk = Chunk(off: nat, first: nat, es: seq<Entry>, end: nat)

  /** The byte after the last record of a group. */
  function RecordsEnd(c: Chunk): nat {
    if c.es == [] then c.off else End(c.es[|c.es| - 1])
  }

  /** Records lie one after the other from the chunk's offset, numbered from its first LSN. */
  ghost predicate Contiguous(c: Chunk, epoch: U32) {
    && (c.es != [] ==> c.es[0].at == c.off)
    && (forall i, j :: 0 <= i < j < |c.es| && j == i + 1 ==> c.es[j].at == End(c.es[i]))
    && (forall i :: 0 <= i < |c.es| ==>
          Fits(c.es[i].record) && c.es[i].record.epoch == epoch && c.es[i].record.lsn == c.first + i)
  }

  /** The bytes `m`, shifted by `shift`, hold every record of the chunk. */
  ghost predicate RecordsIn(cs: Checksum, m: seq<Byte>, c: Chunk, shift: nat) {
    forall i :: 0 <= i < |c.es| ==> shift <= c.es[i].at && RecordIn(cs, m, c.es[i].at - shift, c.es[i].record)
  }

  /** The segment holds the chunk: its records, then zeros up to the block. */
  ghost predicate ChunkHeld(g: Segment, c: Chunk) {
    && c.es != [] && Contiguous(c, g.epoch)
    && RecordsIn(g.cs, g.bytes, c, 0)
    && c.end == PadToBlock(RecordsEnd(c), g.block)
    && ZerosHeld(g, RecordsEnd(c), c.end)
  }

  lemma {:induction false} GroupWritten(g: Segment, c: Chunk, k: nat) returns (items: seq<Item>)
    requires k <= |c.es| && Contiguous(c, g.epoch) && RecordsIn(g.cs, g.bytes, c, 0)
    ensures |items| == k
    ensures Wrote(g, items, c.off, if k == 0 then c.off else End(c.es[k - 1]), c.es[..k], c.first)
    decreases k
  {
    hide Wrote, RecordIn;
    if k == 0 {
      WroteNothing(g, c.off, c.first);
      return [];
    }
    var init := GroupWritten(g, c, k - 1);
    var e := c.es[k - 1];
    WroteRec(g, e, c.first + |c.es[..k - 1]|);
    WroteConcat(g, init, [Rec(e.record)], c.off, e.at, End(e), c.es[..k - 1], [e], c.first);
    assert c.es[..k - 1] + [e] == c.es[..k];
    return init + [Rec(e.record)];
  }

  /** Groups follow each other without gaps, from the data offset and LSN 1. */
  ghost predicate Linked(cs: seq<Chunk>) {
    && (cs != [] ==> cs[0].off == SEGMENT_HDR_BYTES && cs[0].first == 1)
    && forall i, j :: 0 <= i < j < |cs| && j == i + 1 ==>
         cs[j].off == cs[i].end && cs[j].first == cs[i].first + |cs[i].es|
  }

  /** Where the next group goes. */
  function DataEnd(cs: seq<Chunk>): nat {
    if cs == [] then SEGMENT_HDR_BYTES else cs[|cs| - 1].end
  }

  function NextFirst(cs: seq<Chunk>): nat {
    if cs == [] then 1 else cs[|cs| - 1].first + |cs[|cs| - 1].es|
  }

  /** All records of the groups, in order, with their offsets. */
  function AllEntries(cs: seq<Chunk>): seq<Entry> {
    if cs == [] then [] else AllEntries(cs[..|cs| - 1]) + cs[|cs| - 1].es
  }

  /** What a segment holds: non-empty groups, one after the other, numbered from LSN 1. */
  ghost predicate LogHeld(g: Segment, cs: seq<Chunk>) {
    && Linked(cs)
    && (forall i :: 0 <= i < |cs| ==> ChunkHeld(g, cs[i]))
    && NextFirst(cs) < 0x1_0000_0000_0000_0000
  }

  lemma LogHeldInit(g: Segment, cs: seq<Chunk>)
    requires LogHeld(g, cs) && cs != []
    ensures var init := cs[..|cs| - 1];
            && LogHeld(g, init) && ChunkHeld(g, cs[|cs| - 1])
            && cs[|cs| - 1].off == DataEnd(init) && cs[|cs| - 1].first == NextFirst(init)
  {
    hide ChunkHeld;
  }

  lemma {:induction false} GroupsWritten(g: Segment, cs: seq<Chunk>) returns (items: seq<Item>)
    requires LogHeld(g, cs)
    ensures |items| == |AllEntries(cs)| + |cs|
    ensures Wrote(g, items, SEGMENT_HDR_BYTES, DataEnd(cs), AllEntries(cs), 1)
    decreases |cs|
  {
    hide Wrote, ChunkHeld;
    if cs == [] {
      WroteNothing(g, SEGMENT_HDR_BYTES, 1);
      return [];
    }
    var init, c := cs[..|cs| - 1], cs[|cs| - 1];
    LogHeldInit(g, cs);
    EntryCount(g, init);
    var items0 := GroupsWritten(g, init);
    var items1 := ChunkWritten(g, c);
    WroteConcat(g, items0, items1, SEGMENT_HDR_BYTES, c.off, c.end, AllEntries(init), c.es, 1);
    return items0 + items1;
  }

  lemma {:induction false} EntryCount(g: Segment, cs: seq<Chunk>)
    requires LogHeld(g, cs)
    ensures |AllEntries(cs)| == NextFirst(cs) - 1
    ensures ResumeAfter(AllEntries(cs), SEGMENT_HDR_BYTES, g.block) == DataEnd(cs)
    decreases |cs|
  {
    hide Contiguous, RecordsIn, ZerosHeld;
    if cs != [] {
      LogHeldInit(g, cs);
      EntryCount(g, cs[..|cs| - 1]);
    }
  }

  lemma ChunkWritten(g: Segment, c: Chunk) returns (items: seq<Item>)
    requires ChunkHeld(g, c)
    ensures |items| == |c.es| + 1
    ensures Wrote(g, items, c.off, c.end, c.es, c.first)
  {
    hide Wrote, RecordIn, Contiguous, RecordsIn, PadToBlock;
    var recs := GroupWritten(g, c, |c.es|);
    assert c.es[..|c.es|] == c.es;
    assert Wrote(g, recs, c.off, RecordsEnd(c), c.es, c.first);
    WrotePad(g, RecordsEnd(c), c.first + |c.es|);
    WroteConcat(g, recs, [Pad], c.off, RecordsEnd(c), c.end, c.es, [], c.first);
    assert c.es + [] == c.es;
    return recs + [Pad];
  }

  lemma DataStart(block: Block)
    ensures Aligned(SEGMENT_HDR_BYTES, block) && Whole(SEGMENT_HDR_BYTES)
  {
    WholeMod(SEGMENT_HDR_BYTES);
    FloorIsMultiple(SEGMENT_HDR_BYTES, block);
  }

  /** Reading the segment from its start, as recovery does. */
  function ReadSegment(g: Segment): Replay {
    ReadAll(g, SEGMENT_HDR_BYTES, 1, SEGMENT_HDR_BYTES)
  }

  lemma LogReads(g: Segment, cs: seq<Chunk>)
    requires LogHeld(g, cs)
    ensures Reads(g, SEGMENT_HDR_BYTES, 1, SEGMENT_HDR_BYTES, AllEntries(cs), DataEnd(cs))
    ensures ResumeAfter(AllEntries(cs), SEGMENT_HDR_BYTES, g.block) == DataEnd(cs)
  {
    hide ReadAll, ReadsTo, ChunkHeld, WrittenAt, Entries, Numbered, PadToBlock;
    var items := GroupsWritten(g, cs);
    EntryCount(g, cs);
    DataStart(g.block);
    ReadItems(g, items, SEGMENT_HDR_BYTES, DataEnd(cs), 1, SEGMENT_HDR_BYTES);
  }

  /** Round trip: appended records, split into groups in any way, are read back in order across all padding;
      over pre-zeroed or absent space the reader stops clean and would resume at the writer's next offset. */
  lemma RoundTrip(g: Segment, cs: seq<Chunk>)
    requires LogHeld(g, cs) && ZerosHeld(g, DataEnd(cs), |g.bytes|)
    ensures ReadSegment(g) == Replay(AllEntries(cs), Clean, DataEnd(cs))
  {
    hide Scan, ChunkHeld, PadToBlock;
    var end, es := DataEnd(cs), AllEntries(cs);
    LogReads(g, cs);
    DataStart(g.block);
    ZeroTail(g, end, 1 + |es|, end);
    assert Prepend(es, Replay([], Clean, end)) == Replay(es, Clean, end);
  }

  lemma ZeroTail(g: Segment, off: nat, expected: U64, resume: nat)
    requires Aligned(off, g.block) && ZerosHeld(g, off, |g.bytes|)
    ensures ReadsTo(g, off, expected, resume, Replay([], Clean, resume))
  {
    if off < |g.bytes| {
      if |g.bytes| - off < HDR_BYTES {
        assert AllZero(g.bytes[off..]);
      } else {
        FromLeZero(g.bytes[off + 0..off + 0 + 8]);
      }
    }
  }

  /** Whatever bytes follow the groups, torn or never written, every record of them is recovered, in order. */
  lemma AnyTail(g: Segment, cs: seq<Chunk>)
    requires LogHeld(g, cs)
    ensures AllEntries(cs) <= ReadSegment(g).entries
  {
    hide Scan, LogHeld, PadToBlock;
    LogReads(g, cs);
    var es, end := AllEntries(cs), DataEnd(cs);
    var rest := ReadAll(g, end, 1 + |es|, end);
    assert ReadsTo(g, end, 1 + |es|, end, rest);
    assert ReadsTo(g, SEGMENT_HDR_BYTES, 1, SEGMENT_HDR_BYTES, Prepend(es, rest));
  }

  /** A log cut at any byte past the header yields exactly the records that wholly fit. */
  lemma TornLog(g: Segment, cs: seq<Chunk>, n: nat)
    requires LogHeld(g, cs) && SEGMENT_HDR_BYTES <= n <= DataEnd(cs) && n <= |g.bytes|
    ensures var es := AllEntries(cs);
            var got := ReadSegment(g.(bytes := g.bytes[..n]));
            && got.entries == es[..Fitting(es, n)]
            && (got.stop == Clean || got.stop == ShortSegment)
  {
    hide Scan, ChunkHeld, WrittenAt, Entries, Numbered, PadToBlock;
    var items := GroupsWritten(g, cs);
    EntryCount(g, cs);
    var cut := g.(bytes := g.bytes[..n]);
    var es := AllEntries(cs);
    DataStart(g.block);
    TruncatedItems(g, cut, n, items, SEGMENT_HDR_BYTES, DataEnd(cs), 1, SEGMENT_HDR_BYTES);
    var stop, last :| (stop == Clean || stop == ShortSegment)
      && ReadsTo(cut, SEGMENT_HDR_BYTES, 1, SEGMENT_HDR_BYTES, Replay(es[..Fitting(es, n)], stop, last));
  }
}
