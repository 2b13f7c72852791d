/** The on-disk shape of a log record and of a segment header. */
module WalFormat {
  import opened Bytes

  const WAL_MAGIC: U32 := 0x3157_5652      // 'RVW1', little-endian
  const SEGMENT_MAGIC: U32 := 0x3153_5652  // 'RVS1'
  const FORMAT_VERSION: U16 := 1
  const MAX_PAYLOAD := 65535
  const HDR_BYTES := 32
  const SEGMENT_HDR_BYTES := 4096
  const FALLBACK_BLOCK := 4096
  const MAX_GROUP_BYTES := 65536

  /** A power of two between 512 and 4096. */
  predicate ValidBlock(b: nat) {
    b == 512 || b == 1024 || b == 2048 || b == 4096
  }

  type Block = b: nat | b == 512 || b == 1024 || b == 2048 || b == 4096 witness 512

  /** `n` is a multiple of eight, said without division so that proofs need not reason about it. */
  predicate Whole(n: nat) {
    n == 0 || (8 <= n && Whole(n - 8))
  }

  lemma {:induction false} WholeMod(n: nat)
    ensures Whole(n) <==> n % 8 == 0
  {
    if n >= 8 {
      WholeMod(n - 8);
    }
  }

  lemma {:induction false} WholeSum(a: nat, b: nat)
    requires Whole(a) && Whole(b)
    ensures Whole(a + b)
  {
    if a > 0 {
      WholeSum(a - 8, b);
    }
  }

  lemma WholeGap(a: nat, b: nat)
    requires Whole(a) && Whole(b) && a < b
    ensures a + 8 <= b
  {
    WholeMod(a);
    WholeMod(b);
  }

  /** The first multiple of eight at or after `n`: what masking `n + 7` gives. */
  function Pad8(n: nat): (r: nat)
    ensures Whole(r) && n <= r < n + 8
  {
    if n == 0 then 0 else if n <= 8 then 8 else 8 + Pad8(n - 8)
  }

  function RecordBytes(payload: nat): (r: nat)
    ensures Whole(r) && HDR_BYTES + payload <= r < HDR_BYTES + payload + 8
  {
    WholeMod(HDR_BYTES);
    WholeSum(HDR_BYTES, Pad8(payload));
    HDR_BYTES + Pad8(payload)
  }

  /** The last block boundary at or before `n`: what masking off the low bits of `n` gives. */
  function Floor(n: nat, b: Block): (r: nat)
    ensures r <= n < r + b
  {
    if n < b then 0 else b + Floor(n - b, b)
  }

  lemma {:induction false} FloorWhole(n: nat, b: Block)
    ensures Whole(Floor(n, b))
  {
    if n >= b {
      FloorWhole(n - b, b);
      WholeMod(b);
      WholeSum(b, Floor(n - b, b));
    }
  }

  lemma {:induction false} FloorIsMultiple(n: nat, b: Block)
    ensures Floor(n, b) == n / b * b
  {
    if n < b {
      assert n / b == 0;
    } else {
      FloorIsMultiple(n - b, b);
      DivUnique(n, b, (n - b) / b + 1, (n - b) % b);
    }
  }

  /** Quotient and remainder are unique. */
  lemma DivUnique(x: int, b: int, q: int, r: int)
    requires 0 <= r < b && x == b * q + r
    ensures x / b == q && x % b == r
  {
    var d := q - x / b;
    assert b * d == x % b - r by {
      assert b * d == b * q - b * (x / b);
    }
    if d >= 1 || d <= -1 {
      assert false;
    }
  }

  predicate Aligned(n: nat, b: Block) {
    Floor(n, b) == n
  }

  lemma {:induction false} FloorBlocks(n: nat, k: nat, b: Block)
    requires Aligned(n, b)
    ensures Floor(n + k, b) == n + Floor(k, b)
    decreases n
  {
    if n >= b {
      FloorBlocks(n - b, k, b);
    }
  }

  /** The first block boundary at or after `n`. */
  function PadToBlock(n: nat, b: Block): (r: nat)
    ensures Aligned(r, b) && n <= r < n + b
    ensures Aligned(n, b) <==> r == n
    ensures Whole(n) ==> Whole(r)
  {
    FloorWhole(n, b);
    WholeMod(b);
    WholeSum(Floor(n, b), b);
    FloorOfFloor(n, b);
    FloorBlocks(Floor(n, b), b, b);
    if Aligned(n, b) then n else Floor(n, b) + b
  }

  lemma {:induction false} FloorOfFloor(n: nat, b: Block)
    ensures Aligned(Floor(n, b), b)
  {
    if n >= b {
      FloorOfFloor(n - b, b);
    }
  }

  lemma AlignedSum(x: nat, y: nat, b: Block)
    requires Aligned(x, b) && Aligned(y, b)
    ensures Aligned(x + y, b)
  {
    FloorBlocks(x, y, b);
  }

  datatype Record = Record(lsn: U64, ts: U64, epoch: U32, tmpl: U16, payload: seq<Byte>)

  predicate Fits(r: Record) {
    |r.payload| <= MAX_PAYLOAD
  }

  /** The 32 header bytes, with `crc` in the checksum field. */
  function Header(r: Record, crc: U32): (h: seq<Byte>)
    requires Fits(r)
    ensures |h| == HDR_BYTES
  {
    Le(4, WAL_MAGIC) + Le(4, crc) + HeaderTail(r)
  }

  /** The fields after the checksum. */
  function HeaderTail(r: Record): (h: seq<Byte>)
    requires Fits(r)
    ensures |h| == 24
  {
    Le(8, r.lsn) + Le(8, r.ts) + Le(4, r.epoch) + Le(2, r.tmpl) + Le(2, |r.payload|)
  }

  /** What the checksum covers: the header with its own field zeroed, then the payload. */
  function Covered(r: Record): seq<Byte>
    requires Fits(r)
  {
    Header(r, 0) + r.payload
  }

  function Encode(cs: Checksum, r: Record): (s: seq<Byte>)
    requires Fits(r)
    ensures |s| == RecordBytes(|r.payload|)
  {
    Header(r, cs(Covered(r))) + r.payload + Zeros(Pad8(|r.payload|) - |r.payload|)
  }

  lemma HeaderFields(r: Record, crc: U32)
    requires Fits(r)
    ensures var h := Header(r, crc);
            && h[0..4] == Le(4, WAL_MAGIC) && h[4..8] == Le(4, crc) && h[8..16] == Le(8, r.lsn)
            && h[16..24] == Le(8, r.ts) && h[24..28] == Le(4, r.epoch) && h[28..30] == Le(2, r.tmpl)
            && h[30..32] == Le(2, |r.payload|)
  {
  }

  /** Header fields as a reader loads them from `m` at `off`. */
  function FieldAt(m: seq<Byte>, off: nat, at: nat, width: nat): (v: nat)
    requires off + at + width <= |m|
  {
    FromLe(m[off + at..off + at + width])
  }

  /** The record a reader sees at `off`, when its `len` field keeps it inside `m`. */
  function RecordAt(m: seq<Byte>, off: nat): (r: Record)
    requires off + HDR_BYTES <= |m|
    requires off + HDR_BYTES + FieldAt(m, off, 30, 2) <= |m|
    ensures Fits(r)
  {
    Widths();
    FromLeBound(m[off + 8..off + 16]);
    FromLeBound(m[off + 16..off + 24]);
    FromLeBound(m[off + 24..off + 28]);
    FromLeBound(m[off + 28..off + 30]);
    FromLeBound(m[off + 30..off + 32]);
    Record(FieldAt(m, off, 8, 8), FieldAt(m, off, 16, 8), FieldAt(m, off, 24, 4), FieldAt(m, off, 28, 2),
           m[off + HDR_BYTES..off + HDR_BYTES + FieldAt(m, off, 30, 2)])
  }

  /** What the reader checksums at `off`: the stored header with bytes 4..8 zeroed, then the payload. */
  function CoveredAt(m: seq<Byte>, off: nat, len: nat): seq<Byte>
    requires off + HDR_BYTES + len <= |m|
  {
    m[off..off + 4] + Zeros(4) + m[off + 8..off + HDR_BYTES + len]
  }

  /** Reading back the bytes of `Encode` gives every field of the record. */
  lemma EncodedFields(cs: Checksum, r: Record, m: seq<Byte>, off: nat)
    requires Fits(r) && Holds(m, off, Encode(cs, r))
    ensures FieldAt(m, off, 0, 4) == WAL_MAGIC && FieldAt(m, off, 0, 8) != 0
    ensures FieldAt(m, off, 4, 4) == cs(Covered(r))
    ensures FieldAt(m, off, 8, 8) == r.lsn && FieldAt(m, off, 16, 8) == r.ts && FieldAt(m, off, 24, 4) == r.epoch
    ensures FieldAt(m, off, 28, 2) == r.tmpl && FieldAt(m, off, 30, 2) == |r.payload|
    ensures Holds(m, off + HDR_BYTES, r.payload)
    ensures RecordAt(m, off) == r
    ensures CoveredAt(m, off, |r.payload|) == Covered(r)
  {
    var crc := cs(Covered(r));
    var h := Header(r, crc);
    var pad := Zeros(Pad8(|r.payload|) - |r.payload|);
    assert Encode(cs, r) == h + (r.payload + pad);
    HoldsSplit(m, off, h, r.payload + pad);
    HoldsSplit(m, off + HDR_BYTES, r.payload, pad);
    HeaderHeld(r, crc, m, off);
    CoveredParsed(r, crc, m, off);
  }

  lemma HeaderHeld(r: Record, crc: U32, m: seq<Byte>, off: nat)
    requires Fits(r) && Holds(m, off, Header(r, crc))
    ensures FieldAt(m, off, 0, 4) == WAL_MAGIC && FieldAt(m, off, 0, 8) != 0
    ensures FieldAt(m, off, 4, 4) == crc && FieldAt(m, off, 8, 8) == r.lsn
    ensures FieldAt(m, off, 16, 8) == r.ts && FieldAt(m, off, 24, 4) == r.epoch
    ensures FieldAt(m, off, 28, 2) == r.tmpl && FieldAt(m, off, 30, 2) == |r.payload|
    ensures m[off] != 0
    ensures m[off..off + 4] == Header(r, crc)[0..4]
    ensures m[off + 8..off + HDR_BYTES] == Header(r, crc)[8..]
  {
    var h := Header(r, crc);
    HeaderFields(r, crc);
    Widths();
    FieldHeld(m, off, h, 0, 4, WAL_MAGIC);
    FieldHeld(m, off, h, 4, 4, crc);
    FieldHeld(m, off, h, 8, 8, r.lsn);
    FieldHeld(m, off, h, 16, 8, r.ts);
    FieldHeld(m, off, h, 24, 4, r.epoch);
    FieldHeld(m, off, h, 28, 2, r.tmpl);
    FieldHeld(m, off, h, 30, 2, |r.payload|);
    HoldsSlice(m, off, h, 0, 4);
    HoldsSlice(m, off, h, 8, 32);
    MagicByte(m, off);
  }

  lemma MagicByte(m: seq<Byte>, off: nat)
    requires off + 8 <= |m| && FieldAt(m, off, 0, 4) == WAL_MAGIC
    ensures m[off] == 0x52 && FieldAt(m, off, 0, 8) != 0
  {
    var s := m[off + 0..off + 0 + 4];
    assert FromLe(s) == s[0] + 256 * FromLe(s[1..]);
    FromLeZero(m[off + 0..off + 0 + 8]);
    assert m[off + 0..off + 0 + 8][0] == m[off] == s[0];
  }

  lemma FieldHeld(m: seq<Byte>, off: nat, h: seq<Byte>, at: nat, width: nat, v: nat)
    requires Holds(m, off, h) && at + width <= |h|
    requires h[at..at + width] == Le(width, v) && v < Pow256(width)
    ensures FieldAt(m, off, at, width) == v
  {
    HoldsSlice(m, off, h, at, at + width);
    LeRoundTrip(width, v);
  }

  lemma ParsedHeader(m: seq<Byte>, off: nat)
    requires off + HDR_BYTES <= |m|
    requires off + HDR_BYTES + FieldAt(m, off, 30, 2) <= |m|
    requires FieldAt(m, off, 0, 4) == WAL_MAGIC
    ensures FieldAt(m, off, 4, 4) < 0x1_0000_0000
    ensures m[off..off + HDR_BYTES] == Header(RecordAt(m, off), FieldAt(m, off, 4, 4))
  {
    Widths();
    FromLeBound(m[off + 4..off + 8]);
    FromLeRoundTrip(m[off + 0..off + 4]);
    FromLeRoundTrip(m[off + 4..off + 8]);
    FromLeRoundTrip(m[off + 8..off + 16]);
    FromLeRoundTrip(m[off + 16..off + 24]);
    FromLeRoundTrip(m[off + 24..off + 28]);
    FromLeRoundTrip(m[off + 28..off + 30]);
    FromLeRoundTrip(m[off + 30..off + 32]);
    SliceJoin(m, off, off + 4, off + 8);
    SliceJoin(m, off + 8, off + 16, off + 24);
    SliceJoin(m, off + 8, off + 24, off + 28);
    SliceJoin(m, off + 8, off + 28, off + 30);
    SliceJoin(m, off + 8, off + 30, off + 32);
    SliceJoin(m, off, off + 8, off + 32);
  }

  /** Zeroing the checksum field of a header, and nothing else, gives the header with checksum zero. */
  lemma ZeroedHeader(r: Record, crc: U32)
    requires Fits(r)
    ensures Header(r, 0) == Header(r, crc)[..4] + Zeros(4) + Header(r, crc)[8..]
  {
    assert Le(4, 0) == Zeros(4);
    assert Header(r, crc)[..4] == Le(4, WAL_MAGIC);
    assert Header(r, crc)[8..] == HeaderTail(r);
  }

  /** Conversely, bytes that parse with the right magic and a matching checksum are an encoding. */
  lemma ParsedIsEncoding(cs: Checksum, m: seq<Byte>, off: nat)
    requires off + HDR_BYTES <= |m|
    requires off + HDR_BYTES + FieldAt(m, off, 30, 2) <= |m|
    requires FieldAt(m, off, 0, 4) == WAL_MAGIC
    requires FieldAt(m, off, 4, 4) == cs(CoveredAt(m, off, FieldAt(m, off, 30, 2)))
    ensures var r := RecordAt(m, off);
            Holds(m, off, Header(r, cs(Covered(r))) + r.payload)
  {
    var r := RecordAt(m, off);
    var crc := FieldAt(m, off, 4, 4);
    ParsedHeader(m, off);
    CoveredParsed(r, crc, m, off);
    SliceJoin(m, off, off + HDR_BYTES, off + HDR_BYTES + |r.payload|);
  }

  lemma CoveredParsed(r: Record, crc: U32, m: seq<Byte>, off: nat)
    requires Fits(r) && off + HDR_BYTES + |r.payload| <= |m|
    requires m[off..off + HDR_BYTES] == Header(r, crc)
    requires m[off + HDR_BYTES..off + HDR_BYTES + |r.payload|] == r.payload
    ensures CoveredAt(m, off, |r.payload|) == Covered(r)
  {
    ZeroedHeader(r, crc);
    CoveredSplit(m, off, |r.payload|);
  }

  lemma CoveredSplit(m: seq<Byte>, off: nat, n: nat)
    requires off + HDR_BYTES + n <= |m|
    ensures var h := m[off..off + HDR_BYTES];
            CoveredAt(m, off, n) == h[..4] + Zeros(4) + h[8..] + m[off + HDR_BYTES..off + HDR_BYTES + n]
  {
    SliceSlice(m, off, off + HDR_BYTES, 0, 4);
    SliceSlice(m, off, off + HDR_BYTES, 8, HDR_BYTES);
    SliceJoin(m, off + 8, off + HDR_BYTES, off + HDR_BYTES + n);
  }
}
