/** Facts about commit groups in buffers and on the device, free of any object state. */
module CommitLayout {
  import opened Bytes
  import opened WalFormat
  import opened SegmentReading
  import opened LogRoundTrip

  const MAX_BUFFERS := 8

  type Row = s: seq<Byte> | |s| == MAX_GROUP_BYTES witness Zeros(MAX_GROUP_BYTES)

  // ---------------------------------------------------------------- moving bytes

  /** A positioned write to a file; a gap past the end reads as zeros. */
  function WriteAt(f: seq<Byte>, off: nat, b: seq<Byte>): (r: seq<Byte>)
    ensures |r| == if |f| < off + |b| then off + |b| else |f|
    ensures forall i :: off <= i < off + |b| ==> r[i] == b[i - off]
    ensures forall i :: 0 <= i < |f| && !(off <= i < off + |b|) ==> r[i] == f[i]
  {
    var base := if |f| < off + |b| then f + Zeros(off + |b| - |f|) else f;
    base[..off] + b + base[off + |b|..]
  }

  lemma WriteKeeps(f: seq<Byte>, off: nat, w: seq<Byte>, a: nat, b: nat)
    requires a <= b <= |f| && (b <= off || off + |w| <= a)
    ensures WriteAt(f, off, w)[a..b] == f[a..b]
  {
    var r := WriteAt(f, off, w);
    assert forall i :: a <= i < b ==> r[i] == f[i];
  }

  lemma RecordFits(cs: Checksum, m: seq<Byte>, at: nat, r: Record)
    requires RecordIn(cs, m, at, r)
    ensures at + RecordBytes(|r.payload|) <= |m|
  {
  }

  lemma RecordMoves(cs: Checksum, m: seq<Byte>, m': seq<Byte>, at: nat, at': nat, r: Record)
    requires RecordIn(cs, m, at, r)
    requires var n := RecordBytes(|r.payload|);
             at + n <= |m| && at' + n <= |m'| && m'[at'..at' + n] == m[at..at + n]
    ensures RecordIn(cs, m', at', r)
  {
  }

  lemma RecordSpliced(cs: Checksum, row: Row, at: nat, r: Record)
    requires Fits(r) && at + RecordBytes(|r.payload|) <= |row|
    ensures RecordIn(cs, Splice(row, at, Encode(cs, r)), at, r)
  {
    var n := RecordBytes(|r.payload|);
    SplicePlaces(row, at, Encode(cs, r));
  }

  /** The bytes of a record as they are laid down: header with checksum zero, payload, padding. */
  function Laid(row: Row, at: nat, r: Record): (row': Row)
    requires Fits(r) && at + RecordBytes(|r.payload|) <= |row|
  {
    var n := |r.payload|;
    Splice(Splice(Splice(row, at, Header(r, 0)), at + HDR_BYTES, r.payload),
           at + HDR_BYTES + n, Zeros(RecordBytes(n) - HDR_BYTES - n))
  }

  /** An encoding whose checksum is not stored yet. */
  function Unsealed(r: Record): (s: seq<Byte>)
    requires Fits(r)
    ensures |s| == RecordBytes(|r.payload|)
  {
    Header(r, 0) + r.payload + Zeros(RecordBytes(|r.payload|) - HDR_BYTES - |r.payload|)
  }

  lemma LaidIsUnsealed(row: Row, at: nat, r: Record)
    requires Fits(r) && at + RecordBytes(|r.payload|) <= |row|
    ensures Laid(row, at, r) == Splice(row, at, Unsealed(r))
  {
    hide Header, RecordBytes, Splice;
    var n := |r.payload|;
    SpliceAfter(row, at, Header(r, 0), r.payload);
    SpliceAfter(row, at, Header(r, 0) + r.payload, Zeros(RecordBytes(n) - HDR_BYTES - n));
  }

  lemma LaidCovered(row: Row, at: nat, r: Record)
    requires Fits(r) && at + RecordBytes(|r.payload|) <= |row|
    ensures Laid(row, at, r)[at..at + HDR_BYTES] + Laid(row, at, r)[at + HDR_BYTES..at + HDR_BYTES + |r.payload|]
         == Covered(r)
  {
    hide Header, RecordBytes, Laid, Splice;
    LaidIsUnsealed(row, at, r);
    SplicePlaces(row, at, Unsealed(r));
    HoldsSplit(Laid(row, at, r), at, Header(r, 0) + r.payload,
               Zeros(RecordBytes(|r.payload|) - HDR_BYTES - |r.payload|));
    HoldsSplit(Laid(row, at, r), at, Header(r, 0), r.payload);
  }

  /** Laid down, checksummed in place, and the checksum stored in its field. */
  function Sealed(cs: Checksum, row: Row, at: nat, r: Record): Row
    requires Fits(r) && at + RecordBytes(|r.payload|) <= |row|
  {
    var m := Laid(row, at, r);
    var crc := cs(m[at..at + HDR_BYTES] + m[at + HDR_BYTES..at + HDR_BYTES + |r.payload|]);
    Splice(m, at + 4, Le(4, crc))
  }

  /** Sealing a record in place writes exactly its encoding. */
  lemma SealedIsEncoding(cs: Checksum, row: Row, at: nat, r: Record)
    requires Fits(r) && at + RecordBytes(|r.payload|) <= |row|
    ensures Sealed(cs, row, at, r) == Splice(row, at, Encode(cs, r))
  {
    hide Laid, Splice, Covered, Unsealed, Encode;
    LaidCovered(row, at, r);
    LaidIsUnsealed(row, at, r);
    SpliceInside(row, at, Unsealed(r), 4, Le(4, cs(Covered(r))));
    SealedBytes(cs, r);
  }

  lemma SealedBytes(cs: Checksum, r: Record)
    requires Fits(r)
    ensures Unsealed(r)[..4] + Le(4, cs(Covered(r))) + Unsealed(r)[8..] == Encode(cs, r)
  {
    hide HeaderTail, Le, Covered;
    var m, t, c := Le(4, WAL_MAGIC), HeaderTail(r), cs(Covered(r));
    var rest := t + r.payload + Zeros(Pad8(|r.payload|) - |r.payload|);
    assert Unsealed(r) == m + Le(4, 0) + rest;
    assert Unsealed(r)[..4] == m && Unsealed(r)[8..] == rest;
    assert Encode(cs, r) == m + Le(4, c) + rest;
  }

  // ---------------------------------------------------------------- one group

  lemma {:induction false} EntryRange(c: Chunk, epoch: U32, i: nat)
    requires Contiguous(c, epoch) && i < |c.es|
    ensures c.off <= c.es[i].at && End(c.es[i]) <= RecordsEnd(c)
    decreases |c.es| - i
  {
    EntryLow(c, epoch, i);
    if i + 1 < |c.es| {
      EntryRange(c, epoch, i + 1);
    }
  }

  lemma {:induction false} EntryLow(c: Chunk, epoch: U32, i: nat)
    requires Contiguous(c, epoch) && i < |c.es|
    ensures c.off <= c.es[i].at
  {
    if i > 0 {
      EntryLow(c, epoch, i - 1);
    }
  }

  lemma RecordsEndLow(c: Chunk, epoch: U32)
    requires Contiguous(c, epoch)
    ensures c.off <= RecordsEnd(c)
    ensures c.es != [] ==> c.off < RecordsEnd(c)
  {
    if c.es != [] {
      EntryRange(c, epoch, |c.es| - 1);
    }
  }

  /** A buffer holds the group: its records from byte 0, then zeros up to its padded end. */
  ghost predicate BufferHolds(cs: Checksum, row: Row, c: Chunk) {
    && c.off <= RecordsEnd(c) <= c.end <= c.off + MAX_GROUP_BYTES
    && RecordsIn(cs, row, c, c.off)
    && forall i :: RecordsEnd(c) - c.off <= i < c.end - c.off ==> row[i] == 0
  }

  function Extend(c: Chunk, r: Record): Chunk {
    c.(es := c.es + [Entry(RecordsEnd(c), r)])
  }

  /** One more record after the last one extends the group. */
  lemma ExtendContiguous(c: Chunk, epoch: U32, r: Record)
    requires Contiguous(c, epoch) && Fits(r) && r.epoch == epoch && r.lsn == c.first + |c.es|
    ensures Contiguous(Extend(c, r), epoch)
    ensures RecordsEnd(Extend(c, r)) == RecordsEnd(c) + RecordBytes(|r.payload|)
  {
    var c' := Extend(c, r);
    assert forall i :: 0 <= i < |c.es| ==> c'.es[i] == c.es[i];
  }

  lemma ExtendRecords(cs: Checksum, row: Row, c: Chunk, r: Record)
    requires c.off <= RecordsEnd(c) && RecordsIn(cs, row, c, c.off) && RecordIn(cs, row, RecordsEnd(c) - c.off, r)
    ensures RecordsIn(cs, row, Extend(c, r), c.off)
  {
    hide Encode, RecordIn, PadToBlock;
    var c' := Extend(c, r);
    assert forall i :: 0 <= i < |c.es| ==> c'.es[i] == c.es[i];
  }

  /** Copying bytes after the last record keeps every record of the group. */
  lemma RecordsKept(cs: Checksum, row: Row, c: Chunk, epoch: U32, at: nat, src: seq<Byte>)
    requires Contiguous(c, epoch) && RecordsIn(cs, row, c, c.off)
    requires c.off <= RecordsEnd(c) <= c.off + at && at + |src| <= |row|
    ensures RecordsIn(cs, Splice(row, at, src), c, c.off)
  {
    hide Encode, RecordIn, PadToBlock;
    forall i | 0 <= i < |c.es|
      ensures c.off <= c.es[i].at && RecordIn(cs, Splice(row, at, src), c.es[i].at - c.off, c.es[i].record)
    {
      EntryRange(c, epoch, i);
      var a := c.es[i].at - c.off;
      RecordFits(cs, row, a, c.es[i].record);
      SpliceKeeps(row, at, src, a, a + RecordBytes(|c.es[i].record.payload|));
      RecordMoves(cs, row, Splice(row, at, src), a, a, c.es[i].record);
    }
  }

  /** Zeroing from the last record to the block completes the group in the buffer. */
  lemma ZeroFill(cs: Checksum, row: Row, c: Chunk, epoch: U32)
    requires Contiguous(c, epoch) && RecordsIn(cs, row, c, c.off)
    requires c.off <= RecordsEnd(c) <= c.end <= c.off + MAX_GROUP_BYTES
    ensures BufferHolds(cs, Splice(row, RecordsEnd(c) - c.off, Zeros(c.end - RecordsEnd(c))), c)
  {
    hide Encode, RecordIn, PadToBlock;
    RecordsKept(cs, row, c, epoch, RecordsEnd(c) - c.off, Zeros(c.end - RecordsEnd(c)));
  }

  /** Writing a whole buffer puts its group on the device. */
  lemma ChunkLands(g: Segment, g': Segment, c: Chunk, row: Row)
    requires c.es != [] && Contiguous(c, g.epoch) && BufferHolds(g.cs, row, c)
    requires c.end == PadToBlock(RecordsEnd(c), g.block)
    requires g' == g.(bytes := WriteAt(g.bytes, c.off, row[..c.end - c.off]))
    ensures ChunkHeld(g', c)
  {
    hide Encode, RecordIn, PadToBlock;
    RecordsLand(g, g'.bytes, c, row, c.end - c.off);
    ZerosLand(g.bytes, c.off, row, RecordsEnd(c) - c.off, c.end - c.off);
  }

  lemma RecordsLand(g: Segment, f: seq<Byte>, c: Chunk, row: Row, len: nat)
    requires Contiguous(c, g.epoch) && RecordsIn(g.cs, row, c, c.off) && RecordsEnd(c) <= c.off + len
    requires len <= MAX_GROUP_BYTES && f == WriteAt(g.bytes, c.off, row[..len])
    ensures RecordsIn(g.cs, f, c, 0)
  {
    hide Encode, RecordIn, PadToBlock;
    forall i | 0 <= i < |c.es|
      ensures RecordIn(g.cs, f, c.es[i].at, c.es[i].record)
    {
      EntryRange(c, g.epoch, i);
      var a, n := c.es[i].at - c.off, RecordBytes(|c.es[i].record.payload|);
      WritePlaces(g.bytes, c.off, row[..len], a, a + n);
      SliceSlice(row, 0, len, a, a + n);
      RecordMoves(g.cs, row, f, a, c.es[i].at, c.es[i].record);
    }
  }

  lemma ZerosLand(f: seq<Byte>, off: nat, row: Row, from: nat, len: nat)
    requires from <= len <= MAX_GROUP_BYTES && forall i :: from <= i < len ==> row[i] == 0
    ensures forall i :: off + from <= i < off + len ==> WriteAt(f, off, row[..len])[i] == 0
  {
    var w := row[..len];
    assert forall i :: from <= i < len ==> w[i] == row[i];
    assert forall i :: off <= i < off + len ==> WriteAt(f, off, w)[i] == w[i - off];
  }

  lemma WritePlaces(f: seq<Byte>, off: nat, w: seq<Byte>, a: nat, b: nat)
    requires a <= b <= |w|
    ensures WriteAt(f, off, w)[off + a..off + b] == w[a..b]
  {
    var r := WriteAt(f, off, w);
    assert forall i :: a <= i < b ==> r[off + a..off + b][i - a] == w[i];
  }

  /** A write outside a group's range leaves it on the device. */
  lemma ChunkStays(g: Segment, g': Segment, c: Chunk, off: nat, b: seq<Byte>)
    requires ChunkHeld(g, c) && g' == g.(bytes := WriteAt(g.bytes, off, b))
    requires off + |b| <= c.off || c.end <= off
    ensures ChunkHeld(g', c)
  {
    hide Encode, RecordIn, PadToBlock;
    RecordsEndLow(c, g.epoch);
    forall i | 0 <= i < |c.es|
      ensures RecordIn(g.cs, g'.bytes, c.es[i].at, c.es[i].record)
    {
      EntryRange(c, g.epoch, i);
      RecordFits(g.cs, g.bytes, c.es[i].at, c.es[i].record);
      WriteKeeps(g.bytes, off, b, c.es[i].at, End(c.es[i]));
      RecordMoves(g.cs, g.bytes, g'.bytes, c.es[i].at, c.es[i].at, c.es[i].record);
    }
  }

  // ---------------------------------------------------------------- folded facts

  /** A finished group: non-empty, contiguous, padded to the block. Folded. */
  ghost predicate Placed(c: Chunk, epoch: U32, block: Block) {
    && c.es != [] && c.off < c.end <= c.off + MAX_GROUP_BYTES
    && Contiguous(c, epoch) && c.end == PadToBlock(RecordsEnd(c), block)
  }

  /** `ChunkHeld`, folded. */
  ghost predicate OnDevice(g: Segment, c: Chunk) {
    ChunkHeld(g, c)
  }

  /** `BufferHolds`, folded. */
  ghost predicate InBuffer(cs: Checksum, row: Row, c: Chunk) {
    BufferHolds(cs, row, c)
  }

  /** A group being filled: `len` bytes of contiguous records. Folded; its end is not yet known. */
  ghost predicate Growing(c: Chunk, epoch: U32, len: nat) {
    Contiguous(c, epoch) && RecordsEnd(c) == c.off + len
  }

  ghost predicate Filling(cs: Checksum, row: Row, c: Chunk) {
    RecordsIn(cs, row, c, c.off)
  }

  lemma Lands(g: Segment, c: Chunk, row: Row, f: seq<Byte>)
    requires Placed(c, g.epoch, g.block) && InBuffer(g.cs, row, c)
    requires f == WriteAt(g.bytes, c.off, row[..c.end - c.off])
    ensures OnDevice(g.(bytes := f), c)
  {
    ChunkLands(g, g.(bytes := f), c, row);
  }

  lemma Stays(g: Segment, c: Chunk, off: nat, b: seq<Byte>)
    requires OnDevice(g, c) && (off + |b| <= c.off || c.end <= off)
    ensures OnDevice(g.(bytes := WriteAt(g.bytes, off, b)), c)
  {
    ChunkStays(g, g.(bytes := WriteAt(g.bytes, off, b)), c, off, b);
  }

  /** The group with one more record of the given encoding after its `len` bytes. */
  function Grown(c: Chunk, len: nat, r: Record): Chunk {
    c.(es := c.es + [Entry(c.off + len, r)])
  }

  lemma Grow(cs: Checksum, was: Row, c: Chunk, epoch: U32, len: nat, r: Record, row: Row)
    requires Growing(c, epoch, len) && Filling(cs, was, c) && Fits(r)
    requires r.epoch == epoch && r.lsn == c.first + |c.es|
    requires len + RecordBytes(|r.payload|) <= MAX_GROUP_BYTES && row == Splice(was, len, Encode(cs, r))
    ensures Growing(Grown(c, len, r), epoch, len + RecordBytes(|r.payload|)) && Filling(cs, row, Grown(c, len, r))
  {
    hide RecordsIn, Floor;
    ExtendContiguous(c, epoch, r);
    FillRecords(cs, was, c, epoch, r, row);
  }

  lemma FillRecords(cs: Checksum, was: Row, c: Chunk, epoch: U32, r: Record, row: Row)
    requires Contiguous(c, epoch) && RecordsIn(cs, was, c, c.off) && c.off <= RecordsEnd(c) && Fits(r)
    requires var at := RecordsEnd(c) - c.off;
             at + RecordBytes(|r.payload|) <= MAX_GROUP_BYTES && row == Splice(was, at, Encode(cs, r))
    ensures RecordsIn(cs, row, Extend(c, r), c.off)
  {
    hide Encode, PadToBlock, RecordBytes;
    var at := RecordsEnd(c) - c.off;
    RecordsKept(cs, was, c, epoch, at, Encode(cs, r));
    RecordSpliced(cs, was, at, r);
    assert RecordsIn(cs, row, c, c.off) && RecordIn(cs, row, at, r);
    ExtendRecords(cs, row, c, r);
  }

  /** Zero-padding a grown group to the block finishes it, in its buffer and in the plan. */
  lemma Finish(cs: Checksum, row: Row, c: Chunk, epoch: U32, block: Block, len: nat)
    requires Growing(c, epoch, len) && Filling(cs, row, c) && 0 < len <= MAX_GROUP_BYTES && c.es != []
    requires Aligned(c.off, block)
    ensures len <= PadToBlock(len, block) <= MAX_GROUP_BYTES
    ensures var f := c.(end := c.off + PadToBlock(len, block));
            && Placed(f, epoch, block) && Aligned(f.end, block)
            && InBuffer(cs, Splice(row, len, Zeros(PadToBlock(len, block) - len)), f)
  {
    hide RecordsIn, Contiguous, BufferHolds, Floor;
    FloorIsMultiple(MAX_GROUP_BYTES, block);
    PadMonotone(len, MAX_GROUP_BYTES, block);
    PadShift(c.off, len, block);
    AlignedSum(c.off, PadToBlock(len, block), block);
    var f := c.(end := c.off + PadToBlock(len, block));
    SameRecords(cs, row, c, f, epoch);
    ZeroFill(cs, row, f, epoch);
  }

  lemma SameRecords(cs: Checksum, row: Row, c: Chunk, f: Chunk, epoch: U32)
    requires f.off == c.off && f.first == c.first && f.es == c.es
    requires Contiguous(c, epoch) && RecordsIn(cs, row, c, c.off)
    ensures RecordsEnd(f) == RecordsEnd(c) && Contiguous(f, epoch) && RecordsIn(cs, row, f, f.off)
  {
    hide RecordIn;
  }

  lemma PadMonotone(n: nat, m: nat, b: Block)
    requires n <= m && Aligned(m, b)
    ensures PadToBlock(n, b) <= m
  {
    var r := PadToBlock(n, b);
    if r > m {
      FloorBlocks(m, r - m, b);
      assert false;
    }
  }

  /** Padding commutes with an aligned offset. */
  lemma PadShift(off: nat, n: nat, b: Block)
    requires Aligned(off, b)
    ensures PadToBlock(off + n, b) == off + PadToBlock(n, b)
  {
    FloorBlocks(off, n, b);
  }

  // ---------------------------------------------------------------- all groups

  function LastLsn(c: Chunk): int {
    c.first + |c.es| - 1
  }

  /** Groups are finished and linked one after the other. */
  ghost predicate Plan(cs: seq<Chunk>, epoch: U32, block: Block) {
    Linked(cs) && forall i :: 0 <= i < |cs| ==> Placed(cs[i], epoch, block)
  }

  lemma {:induction false} PlanOrder(cs: seq<Chunk>, epoch: U32, block: Block, i: nat, j: nat)
    requires Plan(cs, epoch, block) && i < j < |cs|
    ensures cs[i].end <= cs[j].off && LastLsn(cs[i]) < LastLsn(cs[j])
    decreases j
  {
    hide Contiguous, RecordsEnd, PadToBlock;
    if i < j - 1 {
      PlanOrder(cs, epoch, block, i, j - 1);
    }
  }

  lemma {:induction false} PlanFirst(cs: seq<Chunk>, epoch: U32, block: Block, i: nat)
    requires Plan(cs, epoch, block) && i < |cs|
    ensures 1 <= cs[i].first <= LastLsn(cs[i]) < NextFirst(cs)
    decreases i
  {
    hide Contiguous, RecordsEnd, PadToBlock;
    if i > 0 {
      PlanFirst(cs, epoch, block, i - 1);
    }
    if i < |cs| - 1 {
      PlanOrder(cs, epoch, block, i, |cs| - 1);
    }
  }

  lemma PlanExtends(cs: seq<Chunk>, epoch: U32, block: Block, c: Chunk)
    requires Plan(cs, epoch, block) && Placed(c, epoch, block)
    requires c.off == DataEnd(cs) && c.first == NextFirst(cs)
    ensures Plan(cs + [c], epoch, block)
    ensures DataEnd(cs + [c]) == c.end && NextFirst(cs + [c]) == c.first + |c.es|
  {
    hide Contiguous, RecordsEnd, PadToBlock;
  }
}
