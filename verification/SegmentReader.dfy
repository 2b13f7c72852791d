/** The sequential reader of one log segment, and what it accepts on any bytes at all. */
module SegmentReading {
  import opened Bytes
  import opened WalFormat

  datatype StopReason = Clean | BadMagic | BadCrc | LsnGap | EpochMismatch | SegmentDiscontinuity | ShortSegment

  /** One mapped segment, with what its header fixed. */
  datatype Segment = Segment(cs: Checksum, bytes: seq<Byte>, epoch: U32, block: Block)

  /** A record found at byte `at`. */
  datatype Entry = Entry(at: nat, record: Record)

  datatype Scanned = Got(entry: Entry) | Stopped(reason: StopReason)

  function NextLsn(l: U64): U64 {
    if l + 1 < 0x1_0000_0000_0000_0000 then l + 1 else 0
  }

  function End(e: Entry): (r: nat)
    ensures e.at + HDR_BYTES <= r
  {
    e.at + RecordBytes(|e.record.payload|)
  }

  /** One call of the reader from `off`: skip padding, then accept a record or say why not. */
  function Scan(g: Segment, off: nat, expected: U64): (r: Scanned)
    decreases |g.bytes| - off
  {
    var m := g.bytes;
    if off >= |m| then Stopped(Clean)
    else if |m| - off < HDR_BYTES then Stopped(if AllZero(m[off..]) then Clean else ShortSegment)
    else if FieldAt(m, off, 0, 8) == 0 then
      if Aligned(off, g.block) then Stopped(Clean) else Scan(g, PadToBlock(off, g.block), expected)
    else if FieldAt(m, off, 0, 4) != WAL_MAGIC then
      if !Aligned(off, g.block) then Scan(g, PadToBlock(off, g.block), expected) else Stopped(BadMagic)
    else Check(g, off, expected)
  }

  /** The validation of a record whose magic is in place. */
  function Check(g: Segment, off: nat, expected: U64): (r: Scanned)
    requires off + HDR_BYTES <= |g.bytes|
  {
    var m := g.bytes;
    var len := FieldAt(m, off, 30, 2);
    if FieldAt(m, off, 24, 4) != g.epoch then Stopped(EpochMismatch)
    else if len > MAX_PAYLOAD then Stopped(BadMagic)
    else if off + RecordBytes(len) > |m| then Stopped(ShortSegment)
    else if g.cs(CoveredAt(m, off, len)) != FieldAt(m, off, 4, 4) then Stopped(BadCrc)
    else if expected != 0 && FieldAt(m, off, 8, 8) != expected then Stopped(LsnGap)
    else Got(Entry(off, RecordAt(m, off)))
  }

  /** What the reader guarantees of an accepted record, whatever the bytes are. */
  ghost predicate Accepted(g: Segment, e: Entry, expected: nat) {
    && Fits(e.record)
    && End(e) <= |g.bytes|
    && Holds(g.bytes, e.at, Header(e.record, g.cs(Covered(e.record))) + e.record.payload)
    && e.record.epoch == g.epoch
    && (expected == 0 || e.record.lsn == expected)
  }

  lemma {:induction false} ScanAccepts(g: Segment, off: nat, expected: U64)
    requires Scan(g, off, expected).Got?
    ensures off <= Scan(g, off, expected).entry.at
    ensures Accepted(g, Scan(g, off, expected).entry, expected)
    decreases |g.bytes| - off
  {
    hide FieldAt, Check, Accepted, PadToBlock;
    var m := g.bytes;
    if FieldAt(m, off, 0, 8) == 0 || FieldAt(m, off, 0, 4) != WAL_MAGIC {
      ScanAccepts(g, PadToBlock(off, g.block), expected);
    } else {
      CheckAccepts(g, off, expected);
    }
  }

  lemma CheckAccepts(g: Segment, off: nat, expected: U64)
    requires off + HDR_BYTES <= |g.bytes| && FieldAt(g.bytes, off, 0, 4) == WAL_MAGIC && Check(g, off, expected).Got?
    ensures Check(g, off, expected).entry.at == off && Accepted(g, Check(g, off, expected).entry, expected)
  {
    ParsedIsEncoding(g.cs, g.bytes, off);
  }

  /** Every record from `off` on, why reading stopped, and where writing would resume. */
  datatype Replay = Replay(entries: seq<Entry>, stop: StopReason, resume: nat)

  function ReadAll(g: Segment, off: nat, expected: U64, resume: nat): (r: Replay)
    decreases |g.bytes| - off
  {
    match Scan(g, off, expected)
    case Stopped(why) => Replay([], why, resume)
    case Got(e) =>
      ScanAccepts(g, off, expected);
      var rest := ReadAll(g, End(e), NextLsn(e.record.lsn), PadToBlock(End(e), g.block));
      rest.(entries := [e] + rest.entries)
  }

  /** Reading any bytes yields well-formed, in-bounds, disjoint records of this epoch, in offset order,
      each with the LSN the previous one announces. */
  ghost predicate Chained(g: Segment, es: seq<Entry>, off: nat, expected: U64) {
    es == [] ||
    (&& off <= es[0].at && Accepted(g, es[0], expected)
     && Chained(g, es[1..], End(es[0]), NextLsn(es[0].record.lsn)))
  }

  lemma {:induction false} ReadAllSound(g: Segment, off: nat, expected: U64, resume: nat)
    ensures Chained(g, ReadAll(g, off, expected, resume).entries, off, expected)
    decreases |g.bytes| - off
  {
    match Scan(g, off, expected)
    case Stopped(_) =>
    case Got(e) =>
      ScanAccepts(g, off, expected);
      var next := PadToBlock(End(e), g.block);
      ReadAllSound(g, End(e), NextLsn(e.record.lsn), next);
      assert ReadAll(g, off, expected, resume).entries[1..]
          == ReadAll(g, End(e), NextLsn(e.record.lsn), next).entries;
  }

  /** Below the wrap at 2^64, an accepted sequence numbers its records consecutively. */
  lemma {:induction false} ChainedConsecutive(g: Segment, es: seq<Entry>, off: nat, expected: U64, j: nat)
    requires Chained(g, es, off, expected) && j < |es|
    requires 1 <= expected && expected + |es| <= 0x1_0000_0000_0000_0000
    ensures es[j].record.lsn == expected + j
    ensures Accepted(g, es[j], expected + j)
    ensures off <= es[j].at && (j + 1 < |es| ==> End(es[j]) <= es[j + 1].at)
  {
    if j > 0 {
      ChainedConsecutive(g, es[1..], End(es[0]), NextLsn(es[0].record.lsn), j - 1);
      assert es[j] == es[1..][j - 1];
    }
  }

  /** For any bytes and any first LSN from 1 up: no more records than fit, each an exact encoding of this
      segment's epoch with a matching checksum, numbered consecutively from the first. */
  lemma ArbitraryBytes(g: Segment, first: U64, resume: nat, j: nat)
    requires 1 <= first && first + |g.bytes| <= 0x1_0000_0000_0000_0000
    requires j < |ReadAll(g, SEGMENT_HDR_BYTES, first, resume).entries|
    ensures var es := ReadAll(g, SEGMENT_HDR_BYTES, first, resume).entries;
            && Accepted(g, es[j], first + j)
            && es[j].record.lsn == first + j
            && SEGMENT_HDR_BYTES <= es[j].at
            && (j + 1 < |es| ==> End(es[j]) <= es[j + 1].at)
  {
    var es := ReadAll(g, SEGMENT_HDR_BYTES, first, resume).entries;
    ReadAllSound(g, SEGMENT_HDR_BYTES, first, resume);
    EntriesFit(g, es, SEGMENT_HDR_BYTES, first);
    ChainedConsecutive(g, es, SEGMENT_HDR_BYTES, first, j);
  }

  lemma {:induction false} EntriesFit(g: Segment, es: seq<Entry>, off: nat, expected: U64)
    requires Chained(g, es, off, expected)
    ensures HDR_BYTES * |es| <= |g.bytes| - off || es == []
  {
    if es != [] {
      EntriesFit(g, es[1..], End(es[0]), NextLsn(es[0].record.lsn));
    }
  }

  // ---------------------------------------------------------------- the segment header

  datatype OpenResult = Opened(epoch: U32, first: U64, block: Block) | Refused(why: StopReason)

  /** The 64 bytes of a segment header after its checksum field. */
  function SegmentTail(partition: U16, epoch: U32, first: U64, capacity: U64, block: U32): (s: seq<Byte>)
    ensures |s| == 56
  {
    Le(2, FORMAT_VERSION) + Le(2, partition) + Le(4, epoch) + Le(8, first) + Le(8, capacity) + Le(4, block)
    + [2] + Zeros(3) + Zeros(8) + Zeros(16)
  }

  function SegmentHeader(cs: Checksum, partition: U16, epoch: U32, first: U64, capacity: U64, block: U32)
    : (s: seq<Byte>)
    ensures |s| == SEGMENT_HDR_BYTES
  {
    var tail := SegmentTail(partition, epoch, first, capacity, block);
    Le(4, SEGMENT_MAGIC) + Le(4, cs(Le(4, SEGMENT_MAGIC) + Le(4, 0) + tail)) + tail + Zeros(4032)
  }

  function OpenSegment(cs: Checksum, m: seq<Byte>, expectedFirst: U64): (r: OpenResult)
  {
    if |m| < SEGMENT_HDR_BYTES then Refused(ShortSegment)
    else if FieldAt(m, 0, 0, 4) != SEGMENT_MAGIC then Refused(BadMagic)
    else if FieldAt(m, 0, 8, 2) != FORMAT_VERSION then Refused(BadMagic)
    else if cs(m[0..4] + Zeros(4) + m[8..64]) != FieldAt(m, 0, 4, 4) then Refused(BadCrc)
    else
      Widths();
      FromLeBound(m[0 + 12..0 + 12 + 4]);
      FromLeBound(m[0 + 16..0 + 16 + 8]);
      var first := FieldAt(m, 0, 16, 8);
      var block := FieldAt(m, 0, 32, 4);
      if expectedFirst != 0 && first > expectedFirst then Refused(SegmentDiscontinuity)
      else Opened(FieldAt(m, 0, 12, 4), first, if ValidBlock(block) then block else FALLBACK_BLOCK)
  }

  /** Every field of a segment header is at its offset. */
  lemma SegmentFields(cs: Checksum, partition: U16, epoch: U32, first: U64, capacity: U64, block: U32)
    ensures var tail := SegmentTail(partition, epoch, first, capacity, block);
            && tail[0..2] == Le(2, FORMAT_VERSION) && tail[2..4] == Le(2, partition) && tail[4..8] == Le(4, epoch)
            && tail[8..16] == Le(8, first) && tail[16..24] == Le(8, capacity) && tail[24..28] == Le(4, block)
    ensures var h := SegmentHeader(cs, partition, epoch, first, capacity, block);
            var tail := SegmentTail(partition, epoch, first, capacity, block);
            && h[0..4] == Le(4, SEGMENT_MAGIC) && h[8..64] == tail
            && h[4..8] == Le(4, cs(Le(4, SEGMENT_MAGIC) + Zeros(4) + tail))
  {
    hide Le;
    assert Le(4, 0) == Zeros(4) by {
      FromLeZero(Zeros(4));
      FromLeRoundTrip(Zeros(4));
    }
  }

  /** A segment whose first block is the header the writer lays down opens with that epoch, LSN and block, unless it
      begins past the LSN that is due. */
  lemma SegmentOpens(cs: Checksum, m: seq<Byte>, partition: U16, epoch: U32, first: U64, capacity: U64, block: Block,
                     expectedFirst: U64)
    requires Holds(m, 0, SegmentHeader(cs, partition, epoch, first, capacity, block))
    ensures OpenSegment(cs, m, expectedFirst)
         == if expectedFirst != 0 && first > expectedFirst then Refused(SegmentDiscontinuity)
            else Opened(epoch, first, block)
  {
    hide SegmentHeader, SegmentTail, Le, FromLe;
    var h := SegmentHeader(cs, partition, epoch, first, capacity, block);
    var tail := SegmentTail(partition, epoch, first, capacity, block);
    SegmentFields(cs, partition, epoch, first, capacity, block);
    Widths();
    HoldsSlice(m, 0, h, 0, 4);
    HoldsSlice(m, 0, h, 8, 64);
    SliceSlice(h, 8, 64, 0, 2);
    SliceSlice(h, 8, 64, 4, 8);
    SliceSlice(h, 8, 64, 8, 16);
    SliceSlice(h, 8, 64, 24, 28);
    FieldHeld(m, 0, h, 0, 4, SEGMENT_MAGIC);
    FieldHeld(m, 0, h, 4, 4, cs(Le(4, SEGMENT_MAGIC) + Zeros(4) + tail));
    FieldHeld(m, 0, h, 8, 2, FORMAT_VERSION);
    FieldHeld(m, 0, h, 12, 4, epoch);
    FieldHeld(m, 0, h, 16, 8, first);
    FieldHeld(m, 0, h, 32, 4, block);
  }

  class SegmentReader {
    const cs: Checksum
    var mapped: seq<Byte>
    var offset: nat
    var resumeOffset: nat
    var block: Block
    var epoch: U32
    var firstLsn: U64
    var expectedLsn: U64
    var lastValidLsn: U64
    var stopReason: StopReason

    constructor (cs: Checksum)
      ensures this.cs == cs
    {
      this.cs := cs;
      mapped, offset, resumeOffset, block := [], SEGMENT_HDR_BYTES, SEGMENT_HDR_BYTES, FALLBACK_BLOCK;
      epoch, firstLsn, expectedLsn, lastValidLsn, stopReason := 0, 0, 0, 0, Clean;
    }

    ghost function Seg(): (g: Segment)
      reads this
    {
      Segment(cs, mapped, epoch, block)
    }

    /** What the calls to `Next` still to come will return. */
    ghost function Remaining(): Replay
      reads this
    {
      ReadAll(Seg(), offset, expectedLsn, resumeOffset)
    }

    method Open(m: seq<Byte>, expectedFirst: U64) returns (ok: bool)
      modifies this
      ensures mapped == m && offset == resumeOffset == SEGMENT_HDR_BYTES
      ensures ok == OpenSegment(cs, m, expectedFirst).Opened?
      ensures !ok ==> stopReason == OpenSegment(cs, m, expectedFirst).why
      ensures ok ==> OpenSegment(cs, m, expectedFirst) == Opened(epoch, firstLsn, block)
      ensures ok ==> expectedLsn == firstLsn && stopReason == Clean
                     && lastValidLsn == (if firstLsn > 1 then firstLsn - 1 else 0)
    {
      hide FromLe, Zeros, Floor;
      mapped, offset, resumeOffset, stopReason := m, SEGMENT_HDR_BYTES, SEGMENT_HDR_BYTES, Clean;
      if |m| < SEGMENT_HDR_BYTES {
        stopReason := ShortSegment;
        return false;
      }
      if FieldAt(m, 0, 0, 4) != SEGMENT_MAGIC {
        stopReason := BadMagic;
        return false;
      }
      if FieldAt(m, 0, 8, 2) != FORMAT_VERSION {
        stopReason := BadMagic;
        return false;
      }
      if cs(m[0..4] + Zeros(4) + m[8..64]) != FieldAt(m, 0, 4, 4) {
        stopReason := BadCrc;
        return false;
      }
      Widths();
      FromLeBound(m[0 + 12..0 + 12 + 4]);
      FromLeBound(m[0 + 16..0 + 16 + 8]);
      epoch := FieldAt(m, 0, 12, 4);
      firstLsn := FieldAt(m, 0, 16, 8);
      var b := FieldAt(m, 0, 32, 4);
      if ValidBlock(b) {
        block := b;
      } else {
        block := FALLBACK_BLOCK;
      }
      if expectedFirst != 0 && firstLsn > expectedFirst {
        stopReason := SegmentDiscontinuity;
        return false;
      }
      expectedLsn := firstLsn;
      lastValidLsn := if firstLsn > 1 then firstLsn - 1 else 0;
      return true;
    }

    /** The loop over padding. It ends on any bytes: every pass moves to a later block boundary. */
    method Next() returns (got: bool, e: Entry)
      modifies `offset, `resumeOffset, `expectedLsn, `lastValidLsn, `stopReason
      ensures got == Scan(old(Seg()), old(offset), old(expectedLsn)).Got?
      ensures got ==> Got(e) == Scan(old(Seg()), old(offset), old(expectedLsn))
      ensures got ==> lastValidLsn == e.record.lsn && expectedLsn == NextLsn(e.record.lsn)
      ensures got ==> offset == End(e) && resumeOffset == PadToBlock(offset, block) && unchanged(`stopReason)
      ensures !got ==> Scan(old(Seg()), old(offset), old(expectedLsn)) == Stopped(stopReason)
      ensures !got ==> unchanged(`resumeOffset) && unchanged(`expectedLsn) && unchanged(`lastValidLsn)
    {
      var m := mapped;
      e := Entry(0, Record(0, 0, 0, 0, []));
      while offset < |m|
        invariant unchanged(`resumeOffset) && unchanged(`expectedLsn) && unchanged(`lastValidLsn)
        invariant unchanged(`stopReason) && old(offset) <= offset
        invariant Scan(Seg(), offset, expectedLsn) == Scan(old(Seg()), old(offset), expectedLsn)
        decreases |m| - offset
      {
        if |m| - offset < HDR_BYTES {
          stopReason := if AllZero(m[offset..]) then Clean else ShortSegment;
          return false, e;
        }
        if FieldAt(m, offset, 0, 8) == 0 {
          if Aligned(offset, block) {
            stopReason := Clean;
            return false, e;
          }
          offset := PadToBlock(offset, block);
          continue;
        }
        if FieldAt(m, offset, 0, 4) != WAL_MAGIC {
          if !Aligned(offset, block) {
            offset := PadToBlock(offset, block);
            continue;
          }
          stopReason := BadMagic;
          return false, e;
        }
        match Check(Segment(cs, m, epoch, block), offset, expectedLsn) {
          case Stopped(why) =>
            stopReason := why;
            return false, e;
          case Got(found) =>
            lastValidLsn := found.record.lsn;
            expectedLsn := NextLsn(found.record.lsn);
            offset := End(found);
            resumeOffset := PadToBlock(offset, block);
            return true, found;
        }
      }
      stopReason := Clean;
      return false, e;
    }
  }
}
