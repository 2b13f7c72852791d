/** The invariant of the commit pipeline, and what each of its steps keeps. */
module CommitInvariant {
  import opened Bytes
  import opened WalFormat
  import opened SegmentReading
  import opened LogRoundTrip
  import opened InflightGroups
  import opened CommitLayout

  datatype WriteRequest = WriteRequest(bufIdx: nat, offset: nat, token: U64, len: nat)

  datatype Completion = Completion(token: U64, res: int, expected: nat)

  predicate InFull(c: Completion) {
    c.res >= 0 && c.res == c.expected
  }

  /** A request the device has not finished, or finished and not yet reported. */
  datatype IoState = Queued(req: WriteRequest) | Done(c: Completion)

  /** Registered memory, shared by the writer and the device. */
  class BufferPool {
    var rows: seq<Row>

    constructor ()
      ensures rows == seq(MAX_BUFFERS, _ => Zeros(MAX_GROUP_BYTES))
    {
      rows := seq(MAX_BUFFERS, _ => Zeros(MAX_GROUP_BYTES));
    }
  }

  /** Everything the invariant of the pipeline speaks of, as one value. */
  datatype Pipe = Pipe(
    cs: Checksum, epoch: U32, block: Block, rows: seq<Row>, free: seq<bool>, curBuf: nat, curLen: nat,
    cur: seq<Entry>, file: seq<Byte>, chunks: seq<Chunk>, popped: nat, fifo: seq<InflightGroup>,
    pending: map<U64, IoState>)

  function Seg(p: Pipe): Segment {
    Segment(p.cs, p.file, p.epoch, p.block)
  }

  /** The group being filled, placed where the last submitted one ends. */
  function Cur(p: Pipe): Chunk {
    Chunk(DataEnd(p.chunks), NextFirst(p.chunks), p.cur, 0)
  }

  /** How many of the first `n` buffers are in flight. */
  function Busy(f: seq<bool>, n: nat): (k: nat)
    requires n <= |f|
    ensures k <= n
  {
    if n == 0 then 0 else Busy(f, n - 1) + if f[n - 1] then 0 else 1
  }

  lemma {:induction false} BusyUpdate(f: seq<bool>, n: nat, b: nat, v: bool)
    requires n <= |f| && b < |f| && f[b] != v
    ensures Busy(f[b := v], n) == Busy(f, n) + if n <= b then 0 else if v then -1 else 1
  {
    if n > 0 {
      BusyUpdate(f, n - 1, b, v);
    }
  }

  lemma {:induction false} BusyBound(f: seq<bool>, n: nat, b: nat)
    requires b < n <= |f| && f[b]
    ensures Busy(f, n) < n
  {
    if b < n - 1 {
      BusyBound(f, n - 1, b);
    }
  }

  ghost predicate BuffersOk(p: Pipe) {
    && |p.rows| == MAX_BUFFERS && |p.free| == MAX_BUFFERS && p.curBuf <= MAX_BUFFERS
    && (p.curBuf < MAX_BUFFERS ==> p.free[p.curBuf])
    && (p.curBuf == MAX_BUFFERS ==> p.cur == [] && forall b :: 0 <= b < MAX_BUFFERS ==> !p.free[b])
    && Busy(p.free, MAX_BUFFERS) == |p.fifo|
  }

  ghost predicate CurOk(p: Pipe) {
    && Growing(Cur(p), p.epoch, p.curLen) && p.curLen <= MAX_GROUP_BYTES
    && (p.cur == [] <==> p.curLen == 0)
    && Aligned(DataEnd(p.chunks), p.block)
    && (p.curBuf < |p.rows| ==> Filling(p.cs, p.rows[p.curBuf], Cur(p)))
  }

  /** A group in flight: its token, its length, and its bytes in a buffer of its own. */
  ghost predicate FlyingOk(cs: Checksum, row: Row, c: Chunk, g: InflightGroup) {
    g.token == LastLsn(c) && g.len == c.end - c.off && InBuffer(cs, row, c)
  }

  ghost predicate FlightOk(p: Pipe) {
    && p.popped + |p.fifo| == |p.chunks| && |p.rows| == |p.free| == MAX_BUFFERS
    && (forall k :: 0 <= k < |p.fifo| ==>
          && p.fifo[k].bufIdx < MAX_BUFFERS && !p.free[p.fifo[k].bufIdx]
          && FlyingOk(p.cs, p.rows[p.fifo[k].bufIdx], p.chunks[p.popped + k], p.fifo[k]))
    && (forall j, k :: 0 <= j < k < |p.fifo| ==> p.fifo[j].bufIdx != p.fifo[k].bufIdx)
  }

  /** Groups known durable, and groups completed in full, are on the device. */
  ghost predicate DiskOk(s: Segment, chunks: seq<Chunk>, popped: nat, fifo: seq<InflightGroup>) {
    && popped + |fifo| == |chunks|
    && (forall j :: 0 <= j < popped ==> OnDevice(s, chunks[j]))
    && (forall k :: 0 <= k < |fifo| && fifo[k].completed && fifo[k].ok ==> OnDevice(s, chunks[popped + k]))
  }

  /** What the device still owes about one group in flight: something until the group is completed, nothing after. */
  ghost predicate OwedOk(s: Segment, pending: map<U64, IoState>, c: Chunk, g: InflightGroup) {
    && (g.token in pending <==> !g.completed)
    && (g.token in pending ==>
          match pending[g.token]
          case Queued(req) => req == WriteRequest(g.bufIdx, c.off, g.token, g.len)
          case Done(done) => done.token == g.token && done.expected == g.len && (InFull(done) ==> OnDevice(s, c)))
  }

  ghost predicate IoOk(s: Segment, pending: map<U64, IoState>, chunks: seq<Chunk>, popped: nat,
                       fifo: seq<InflightGroup>) {
    && popped + |fifo| == |chunks|
    && (forall k :: 0 <= k < |fifo| ==> OwedOk(s, pending, chunks[popped + k], fifo[k]))
    && (forall t :: t in pending ==> exists k :: 0 <= k < |fifo| && fifo[k].token == t)
  }

  ghost predicate Inv(p: Pipe) {
    && BuffersOk(p) && Plan(p.chunks, p.epoch, p.block) && CurOk(p)
    && FlightOk(p)
    && DiskOk(Seg(p), p.chunks, p.popped, p.fifo)
    && IoOk(Seg(p), p.pending, p.chunks, p.popped, p.fifo)
  }

  // ---------------------------------------------------------------- what each step keeps

  /** The plain facts of a pipeline that satisfies its invariant. */
  lemma Shape(p: Pipe)
    requires Inv(p)
    ensures |p.rows| == |p.free| == MAX_BUFFERS && p.curBuf <= MAX_BUFFERS && p.curLen <= MAX_GROUP_BYTES
    ensures p.curBuf == MAX_BUFFERS ==> p.cur == []
    ensures p.cur == [] <==> p.curLen == 0
    ensures p.curBuf < MAX_BUFFERS ==> p.free[p.curBuf]
    ensures p.popped + |p.fifo| == |p.chunks|
  {
    hide Plan, FlyingOk, OwedOk, OnDevice, Growing, Filling;
  }

  lemma InitiallyHolds(p: Pipe)
    requires |p.rows| == MAX_BUFFERS && p.free == seq(MAX_BUFFERS, _ => true)
    requires p.curBuf == 0 && p.curLen == 0 && p.cur == [] && p.chunks == [] && p.popped == 0
    requires p.fifo == [] && p.pending == map[]
    ensures Inv(p)
  {
    FreshCur(p);
    DataStart(p.block);
    NoneBusy(p.free, MAX_BUFFERS);
  }

  lemma {:induction false} NoneBusy(f: seq<bool>, n: nat)
    requires n <= |f| && forall b :: 0 <= b < n ==> f[b]
    ensures Busy(f, n) == 0
  {
    if n > 0 {
      NoneBusy(f, n - 1);
    }
  }

  /** Each group in flight has a buffer of its own, so there are at most eight of them, and at most seven
      while another one is being filled: the ring of 32 never fills. */
  lemma FlightBound(p: Pipe)
    requires Inv(p)
    ensures |p.fifo| <= MAX_BUFFERS
    ensures p.curBuf < MAX_BUFFERS ==> |p.fifo| < MAX_BUFFERS
  {
    if p.curBuf < MAX_BUFFERS {
      BusyBound(p.free, MAX_BUFFERS, p.curBuf);
    }
  }

  /** The pipeline with one more record in the current buffer. */
  ghost function Filled(p: Pipe, r: Record): Pipe
    requires |p.rows| == MAX_BUFFERS && p.curBuf < MAX_BUFFERS && Fits(r)
    requires p.curLen + RecordBytes(|r.payload|) <= MAX_GROUP_BYTES
  {
    p.(rows := p.rows[p.curBuf := Sealed(p.cs, p.rows[p.curBuf], p.curLen, r)],
       cur := p.cur + [Entry(DataEnd(p.chunks) + p.curLen, r)],
       curLen := p.curLen + RecordBytes(|r.payload|))
  }

  /** Filling the current buffer touches no group in flight. */
  lemma FillKeeps(p: Pipe, r: Record)
    requires Inv(p) && p.curBuf < MAX_BUFFERS && Fits(r)
    requires r.epoch == p.epoch && r.lsn == NextFirst(p.chunks) + |p.cur|
    requires p.curLen + RecordBytes(|r.payload|) <= MAX_GROUP_BYTES
    ensures Inv(Filled(p, r))
  {
    hide Placed, OnDevice, InBuffer, Growing, Filling, Plan, Sealed;
    var row := Sealed(p.cs, p.rows[p.curBuf], p.curLen, r);
    var q := Filled(p, r);
    SealedIsEncoding(p.cs, p.rows[p.curBuf], p.curLen, r);
    Grow(p.cs, p.rows[p.curBuf], Cur(p), p.epoch, p.curLen, r, row);
    assert Cur(q) == Grown(Cur(p), p.curLen, r);
    assert Seg(q) == Seg(p);
  }

  /** The current group, zero-padded to the block. */
  function Finished(p: Pipe): Chunk {
    Cur(p).(end := DataEnd(p.chunks) + PadToBlock(p.curLen, p.block))
  }

  function Padding(p: Pipe): seq<Byte> {
    Zeros(PadToBlock(p.curLen, p.block) - p.curLen)
  }

  function Flying(p: Pipe): InflightGroup
    requires 0 <= LastLsn(Cur(p)) < 0x1_0000_0000_0000_0000
  {
    InflightGroup(LastLsn(Cur(p)), p.curBuf, PadToBlock(p.curLen, p.block), false, false)
  }

  function RequestOf(g: InflightGroup, off: nat): WriteRequest {
    WriteRequest(g.bufIdx, off, g.token, g.len)
  }

  lemma FinishCur(p: Pipe)
    requires Inv(p) && p.curBuf < MAX_BUFFERS && p.cur != []
    ensures p.curLen <= PadToBlock(p.curLen, p.block) <= MAX_GROUP_BYTES
    ensures Placed(Finished(p), p.epoch, p.block) && Aligned(Finished(p).end, p.block)
    ensures InBuffer(p.cs, Splice(p.rows[p.curBuf], p.curLen, Padding(p)), Finished(p))
  {
    hide Placed, OnDevice, InBuffer, Growing, Filling, Plan;
    Finish(p.cs, p.rows[p.curBuf], Cur(p), p.epoch, p.block, p.curLen);
  }

  ghost function Padded(p: Pipe): Pipe
    requires |p.rows| == MAX_BUFFERS && p.curBuf < MAX_BUFFERS
    requires p.curLen <= PadToBlock(p.curLen, p.block) <= MAX_GROUP_BYTES
  {
    p.(rows := p.rows[p.curBuf := Splice(p.rows[p.curBuf], p.curLen, Padding(p))])
  }

  /** Zeroing past the records of the current buffer, without submitting, changes nothing that matters. */
  lemma PadKeeps(p: Pipe)
    requires Inv(p) && p.curBuf < MAX_BUFFERS && p.cur != []
    requires p.curLen <= PadToBlock(p.curLen, p.block) <= MAX_GROUP_BYTES
    ensures Inv(Padded(p))
  {
    hide Placed, OnDevice, InBuffer, Growing, Filling, Plan;
    var row := Splice(p.rows[p.curBuf], p.curLen, Padding(p));
    var q := Padded(p);
    StillFilling(p.cs, p.rows[p.curBuf], Cur(p), p.epoch, p.curLen, Padding(p));
    assert Cur(q) == Cur(p) && Seg(q) == Seg(p);
  }

  lemma StillFilling(cs: Checksum, row: Row, c: Chunk, epoch: U32, len: nat, src: seq<Byte>)
    requires Growing(c, epoch, len) && Filling(cs, row, c) && len + |src| <= MAX_GROUP_BYTES
    ensures Filling(cs, Splice(row, len, src), c)
  {
    RecordsKept(cs, row, c, epoch, len, src);
  }

  /** The pipeline after the device took the current group; buffer `next` is filled from now on. */
  ghost function Submitted(p: Pipe, next: nat): Pipe
    requires p.curBuf < |p.free| && 0 <= LastLsn(Cur(p)) < 0x1_0000_0000_0000_0000
  {
    p.(free := p.free[p.curBuf := false], curBuf := next, curLen := 0, cur := [],
       chunks := p.chunks + [Finished(p)], fifo := p.fifo + [Flying(p)],
       pending := p.pending[Flying(p).token := Queued(RequestOf(Flying(p), Finished(p).off))])
  }

  /** Submitting the (padded) current group, when the device takes it. */
  lemma SubmitKeeps(p: Pipe, next: nat)
    requires Inv(p) && p.curBuf < MAX_BUFFERS && p.cur != []
    requires 0 <= LastLsn(Cur(p)) < 0x1_0000_0000_0000_0000
    requires InBuffer(p.cs, p.rows[p.curBuf], Finished(p))
    requires Placed(Finished(p), p.epoch, p.block) && Aligned(Finished(p).end, p.block)
    requires next <= MAX_BUFFERS
    requires var free := p.free[p.curBuf := false];
             if next < MAX_BUFFERS then free[next] else forall b :: 0 <= b < MAX_BUFFERS ==> !free[b]
    ensures Inv(Submitted(p, next))
  {
    hide Placed, OnDevice, InBuffer, Growing, Filling, Plan;
    var c, g := Finished(p), Flying(p);
    var q := Submitted(p, next);
    PlanExtends(p.chunks, p.epoch, p.block, c);
    BusyUpdate(p.free, MAX_BUFFERS, p.curBuf, false);
    FreshCur(q);
    assert Seg(q) == Seg(p);
    SubmitFlight(p, q, c, g);
    SubmitIo(p, q, c, g);
  }

  lemma FreshCur(q: Pipe)
    requires q.cur == []
    ensures Growing(Cur(q), q.epoch, 0)
    ensures q.curBuf < |q.rows| ==> Filling(q.cs, q.rows[q.curBuf], Cur(q))
  {
  }

  lemma SubmitFlight(p: Pipe, q: Pipe, c: Chunk, g: InflightGroup)
    requires FlightOk(p) && DiskOk(Seg(p), p.chunks, p.popped, p.fifo)
    requires p.curBuf < MAX_BUFFERS && p.free[p.curBuf] && g.bufIdx == p.curBuf && !g.completed
    requires FlyingOk(p.cs, p.rows[p.curBuf], c, g)
    requires q.cs == p.cs && q.rows == p.rows && q.popped == p.popped && q.free == p.free[p.curBuf := false]
    requires q.chunks == p.chunks + [c] && q.fifo == p.fifo + [g]
    ensures FlightOk(q) && DiskOk(Seg(p), q.chunks, q.popped, q.fifo)
  {
    hide Placed, OnDevice, InBuffer, Growing, Filling, Plan;
    var n := |p.fifo|;
    assert forall k :: 0 <= k < n ==> q.fifo[k] == p.fifo[k] && q.chunks[q.popped + k] == p.chunks[p.popped + k];
    assert forall j :: 0 <= j < p.popped ==> q.chunks[j] == p.chunks[j];
    assert q.fifo[n] == g && q.chunks[q.popped + n] == c;
  }

  lemma SubmitIo(p: Pipe, q: Pipe, c: Chunk, g: InflightGroup)
    requires Inv(p) && c.first == NextFirst(p.chunks) && c.es != [] && g.token == LastLsn(c) && !g.completed
    requires q.popped == p.popped && q.chunks == p.chunks + [c] && q.fifo == p.fifo + [g]
    requires q.pending == p.pending[g.token := Queued(RequestOf(g, c.off))]
    ensures IoOk(Seg(p), q.pending, q.chunks, q.popped, q.fifo)
  {
    hide Placed, OnDevice, InBuffer, Growing, Filling, Plan;
    var n := |p.fifo|;
    forall k | 0 <= k < n + 1
      ensures OwedOk(Seg(p), q.pending, q.chunks[q.popped + k], q.fifo[k])
    {
      if k < n {
        assert q.fifo[k] == p.fifo[k] && q.chunks[q.popped + k] == p.chunks[p.popped + k];
        PlanFirst(p.chunks, p.epoch, p.block, p.popped + k);
        assert FlyingOk(p.cs, p.rows[p.fifo[k].bufIdx], p.chunks[p.popped + k], p.fifo[k]);
        assert OwedOk(Seg(p), p.pending, p.chunks[p.popped + k], p.fifo[k]);
      }
    }
    TokensQueued(p.pending, q.pending, p.fifo, g);
  }

  /** Every request still stands for a group in flight. */
  lemma TokensQueued(was: map<U64, IoState>, now: map<U64, IoState>, fifo: seq<InflightGroup>, g: InflightGroup)
    requires forall t :: t in was ==> exists k :: 0 <= k < |fifo| && fifo[k].token == t
    requires forall t :: t in now ==> t in was || t == g.token
    ensures forall t :: t in now ==> exists k :: 0 <= k < |fifo| + 1 && (fifo + [g])[k].token == t
  {
    forall t | t in now
      ensures exists k :: 0 <= k < |fifo| + 1 && (fifo + [g])[k].token == t
    {
      if t in was {
        var k :| 0 <= k < |fifo| && fifo[k].token == t;
        assert (fifo + [g])[k].token == t;
      } else {
        assert (fifo + [g])[|fifo|].token == t;
      }
    }
  }

  /** In-flight tokens are distinct: LSNs of groups strictly increase. */
  lemma TokensDistinct(p: Pipe)
    requires Inv(p)
    ensures DistinctTokens(p.fifo)
  {
    hide Placed, OnDevice, InBuffer, Growing, Filling, Plan;
    forall j, k | 0 <= j < k < |p.fifo|
      ensures p.fifo[j].token != p.fifo[k].token
    {
      PlanOrder(p.chunks, p.epoch, p.block, p.popped + j, p.popped + k);
      assert FlyingOk(p.cs, p.rows[p.fifo[j].bufIdx], p.chunks[p.popped + j], p.fifo[j]);
      assert FlyingOk(p.cs, p.rows[p.fifo[k].bufIdx], p.chunks[p.popped + k], p.fifo[k]);
    }
  }

  /** Delivering a completion marks its group and settles what the device owed. */
  lemma MarkKeeps(p: Pipe, token: U64)
    requires Inv(p) && token in p.pending && p.pending[token].Done?
    ensures Inv(p.(fifo := MarkAll(p.fifo, token, InFull(p.pending[token].c)), pending := p.pending - {token}))
  {
    hide Placed, OnDevice, InBuffer, Growing, Filling, Plan;
    var ok := InFull(p.pending[token].c);
    var q := p.(fifo := MarkAll(p.fifo, token, ok), pending := p.pending - {token});
    assert Cur(q) == Cur(p) && Seg(q) == Seg(p);
    MarkFlight(p, q, token, ok);
    MarkIo(Seg(p), p.pending, p.chunks, p.popped, p.fifo, token);
  }

  lemma MarkFlight(p: Pipe, q: Pipe, token: U64, ok: bool)
    requires FlightOk(p) && q.fifo == MarkAll(p.fifo, token, ok)
    requires q.cs == p.cs && q.rows == p.rows && q.popped == p.popped && q.chunks == p.chunks && q.free == p.free
    ensures FlightOk(q)
  {
    hide InBuffer;
    forall k | 0 <= k < |p.fifo|
      ensures q.fifo[k].bufIdx == p.fifo[k].bufIdx
      ensures FlyingOk(q.cs, q.rows[q.fifo[k].bufIdx], q.chunks[q.popped + k], q.fifo[k])
    {
      assert FlyingOk(p.cs, p.rows[p.fifo[k].bufIdx], p.chunks[p.popped + k], p.fifo[k]);
    }
  }

  lemma MarkIo(s: Segment, pending: map<U64, IoState>, chunks: seq<Chunk>, popped: nat, fifo: seq<InflightGroup>,
               token: U64)
    requires DiskOk(s, chunks, popped, fifo) && IoOk(s, pending, chunks, popped, fifo)
    requires token in pending && pending[token].Done?
    ensures var fifo' := MarkAll(fifo, token, InFull(pending[token].c));
            DiskOk(s, chunks, popped, fifo') && IoOk(s, pending - {token}, chunks, popped, fifo')
  {
    hide OnDevice;
    var fifo' := MarkAll(fifo, token, InFull(pending[token].c));
    forall k | 0 <= k < |fifo|
      ensures OwedOk(s, pending - {token}, chunks[popped + k], fifo'[k])
      ensures fifo'[k].completed && fifo'[k].ok ==> OnDevice(s, chunks[popped + k])
    {
      assert OwedOk(s, pending, chunks[popped + k], fifo[k]);
    }
    forall t | t in pending && t != token
      ensures exists k :: 0 <= k < |fifo'| && fifo'[k].token == t
    {
      var k :| 0 <= k < |fifo| && fifo[k].token == t;
      assert fifo'[k].token == t;
    }
  }

  ghost function Popped(p: Pipe, curBuf: nat): Pipe
    requires p.fifo != [] && p.fifo[0].bufIdx < |p.free|
  {
    p.(fifo := p.fifo[1..], popped := p.popped + 1, free := p.free[p.fifo[0].bufIdx := true], curBuf := curBuf)
  }

  /** The token of the oldest group is its last LSN, past that of every durable group. */
  lemma PopToken(p: Pipe)
    requires Inv(p) && p.fifo != []
    ensures p.popped < |p.chunks| && p.fifo[0].token == LastLsn(p.chunks[p.popped]) > 0
    ensures p.popped > 0 ==> LastLsn(p.chunks[p.popped - 1]) < LastLsn(p.chunks[p.popped])
  {
    hide Placed, OnDevice, InBuffer, Growing, Filling, Plan;
    assert FlyingOk(p.cs, p.rows[p.fifo[0].bufIdx], p.chunks[p.popped + 0], p.fifo[0]);
    PlanFirst(p.chunks, p.epoch, p.block, p.popped);
    if p.popped > 0 {
      PlanOrder(p.chunks, p.epoch, p.block, p.popped - 1, p.popped);
    }
  }

  lemma {:induction false} Subset<T>(a: set<T>, b: set<T>)
    requires a <= b
    ensures |a| <= |b|
  {
    assert b == a + (b - a);
  }

  function TokenSet(fifo: seq<InflightGroup>): set<U64> {
    set k | 0 <= k < |fifo| :: fifo[k].token
  }

  lemma {:induction false} TokenSetSize(fifo: seq<InflightGroup>)
    ensures |TokenSet(fifo)| <= |fifo|
  {
    if fifo != [] {
      var init := fifo[..|fifo| - 1];
      TokenSetSize(init);
      assert TokenSet(fifo) == TokenSet(init) + {fifo[|fifo| - 1].token};
    }
  }

  /** The device is never asked for more than the groups in flight. */
  lemma PendingFew(p: Pipe)
    requires Inv(p)
    ensures |p.pending.Keys| <= |p.fifo|
  {
    hide Placed, OnDevice, InBuffer, Growing, Filling, Plan;
    assert p.pending.Keys <= TokenSet(p.fifo);
    Subset(p.pending.Keys, TokenSet(p.fifo));
    TokenSetSize(p.fifo);
  }

  /** A group not completed is one the device still owes a report about. */
  lemma OldestOwed(p: Pipe)
    requires Inv(p) && p.fifo != [] && !p.fifo[0].completed
    ensures p.fifo[0].token in p.pending
  {
    hide Placed, OnDevice, InBuffer, Growing, Filling, Plan;
    assert OwedOk(Seg(p), p.pending, p.chunks[p.popped + 0], p.fifo[0]);
  }

  lemma PendingNamed(p: Pipe)
    requires Inv(p)
    ensures forall t :: t in p.pending && p.pending[t].Done? ==> p.pending[t].c.token == t
  {
    hide Placed, OnDevice, InBuffer, Growing, Filling, Plan;
    forall t | t in p.pending && p.pending[t].Done?
      ensures p.pending[t].c.token == t
    {
      var k :| 0 <= k < |p.fifo| && p.fifo[k].token == t;
      assert OwedOk(Seg(p), p.pending, p.chunks[p.popped + k], p.fifo[k]);
    }
  }

  /** The oldest group, completed in full, becomes durable and its buffer free. */
  lemma PopKeeps(p: Pipe, curBuf: nat)
    requires Inv(p) && p.fifo != [] && p.fifo[0].completed && p.fifo[0].ok
    requires curBuf == if p.curBuf >= MAX_BUFFERS then p.fifo[0].bufIdx else p.curBuf
    ensures p.fifo[0].bufIdx < |p.free|
    ensures Inv(Popped(p, curBuf))
  {
    hide Placed, OnDevice, InBuffer, Growing, Filling, Plan;
    var q := Popped(p, curBuf);
    assert Seg(q) == Seg(p) && Cur(q) == Cur(p);
    BusyUpdate(p.free, MAX_BUFFERS, p.fifo[0].bufIdx, true);
    if p.cur == [] {
      FreshCur(q);
    }
    PopFlight(p, q);
    PopIo(p, q);
  }

  lemma PopFlight(p: Pipe, q: Pipe)
    requires FlightOk(p) && DiskOk(Seg(p), p.chunks, p.popped, p.fifo)
    requires p.fifo != [] && p.fifo[0].completed && p.fifo[0].ok
    requires q.cs == p.cs && q.rows == p.rows && q.popped == p.popped + 1 && q.chunks == p.chunks
    requires q.free == p.free[p.fifo[0].bufIdx := true] && q.fifo == p.fifo[1..]
    ensures FlightOk(q) && DiskOk(Seg(p), q.chunks, q.popped, q.fifo)
  {
    hide Placed, OnDevice, InBuffer, Growing, Filling, Plan;
    assert forall k :: 0 <= k < |q.fifo| ==> q.fifo[k] == p.fifo[k + 1];
    forall k | 0 <= k < |q.fifo|
      ensures q.fifo[k].bufIdx < MAX_BUFFERS && !q.free[q.fifo[k].bufIdx]
      ensures FlyingOk(q.cs, q.rows[q.fifo[k].bufIdx], q.chunks[q.popped + k], q.fifo[k])
      ensures q.fifo[k].completed && q.fifo[k].ok ==> OnDevice(Seg(p), q.chunks[q.popped + k])
    {
      assert q.fifo[k] == p.fifo[k + 1] && q.popped + k == p.popped + (k + 1);
    }
    assert OnDevice(Seg(p), p.chunks[p.popped + 0]);
  }

  lemma PopIo(p: Pipe, q: Pipe)
    requires Inv(p) && p.fifo != [] && p.fifo[0].completed
    requires q.popped == p.popped + 1 && q.chunks == p.chunks && q.fifo == p.fifo[1..] && q.pending == p.pending
    ensures IoOk(Seg(p), q.pending, q.chunks, q.popped, q.fifo)
  {
    hide Placed, OnDevice, InBuffer, Growing, Filling, Plan, BuffersOk, CurOk, FlightOk, DiskOk;
    forall k | 0 <= k < |q.fifo|
      ensures OwedOk(Seg(p), q.pending, q.chunks[q.popped + k], q.fifo[k])
    {
      assert q.fifo[k] == p.fifo[k + 1] && q.popped + k == p.popped + (k + 1);
      assert OwedOk(Seg(p), p.pending, p.chunks[p.popped + (k + 1)], p.fifo[k + 1]);
    }
    forall t | t in q.pending
      ensures exists k :: 0 <= k < |q.fifo| && q.fifo[k].token == t
    {
      var k :| 0 <= k < |p.fifo| && p.fifo[k].token == t;
      assert OwedOk(Seg(p), p.pending, p.chunks[p.popped + 0], p.fifo[0]);
      assert k > 0;
      assert q.fifo[k - 1] == p.fifo[k];
    }
  }

  /** Whatever the device leaves in the range of one queued group disturbs no other group on it. */
  lemma PartialKeeps(p: Pipe, k: nat, w: seq<Byte>)
    requires Inv(p) && k < |p.fifo| && p.fifo[k].token in p.pending && p.pending[p.fifo[k].token].Queued?
    requires |w| <= p.fifo[k].len
    ensures Inv(p.(file := WriteAt(p.file, p.chunks[p.popped + k].off, w)))
  {
    hide Placed, OnDevice, InBuffer, Growing, Filling, Plan;
    var c := p.chunks[p.popped + k];
    assert FlyingOk(p.cs, p.rows[p.fifo[k].bufIdx], p.chunks[p.popped + k], p.fifo[k]);
    PlanSize(p.chunks, p.epoch, p.block, p.popped + k);
    var q := p.(file := WriteAt(p.file, c.off, w));
    assert Cur(q) == Cur(p) && Seg(q) == Seg(p).(bytes := WriteAt(p.file, c.off, w));
    OthersStay(p, k, w);
    OwedOthers(Seg(p), Seg(q), p.pending, p.chunks, p.popped, p.fifo, k);
  }

  lemma PlanSize(cs: seq<Chunk>, epoch: U32, block: Block, i: nat)
    requires Plan(cs, epoch, block) && i < |cs|
    ensures Placed(cs[i], epoch, block) && cs[i].off < cs[i].end <= cs[i].off + MAX_GROUP_BYTES
  {
    hide Linked, Contiguous, PadToBlock;
  }

  lemma OthersStay(p: Pipe, k: nat, w: seq<Byte>)
    requires Inv(p) && k < |p.fifo| && p.chunks[p.popped + k].off + |w| <= p.chunks[p.popped + k].end
    ensures var s := Seg(p).(bytes := WriteAt(p.file, p.chunks[p.popped + k].off, w));
            forall i :: 0 <= i < |p.chunks| && i != p.popped + k && OnDevice(Seg(p), p.chunks[i])
              ==> OnDevice(s, p.chunks[i])
  {
    hide Placed, OnDevice, InBuffer, Growing, Filling, Plan;
    var c := p.chunks[p.popped + k];
    var s := Seg(p).(bytes := WriteAt(p.file, c.off, w));
    forall i | 0 <= i < |p.chunks| && i != p.popped + k && OnDevice(Seg(p), p.chunks[i])
      ensures OnDevice(s, p.chunks[i])
    {
      if i < p.popped + k {
        PlanOrder(p.chunks, p.epoch, p.block, i, p.popped + k);
      } else {
        PlanOrder(p.chunks, p.epoch, p.block, p.popped + k, i);
      }
      Stays(Seg(p), p.chunks[i], c.off, w);
    }
  }

  lemma OwedOthers(s: Segment, s': Segment, pending: map<U64, IoState>, chunks: seq<Chunk>, popped: nat,
                   fifo: seq<InflightGroup>, k: nat)
    requires DiskOk(s, chunks, popped, fifo) && IoOk(s, pending, chunks, popped, fifo)
    requires k < |fifo| && fifo[k].token in pending && pending[fifo[k].token].Queued?
    requires forall i :: 0 <= i < |chunks| && i != popped + k && OnDevice(s, chunks[i]) ==> OnDevice(s', chunks[i])
    ensures DiskOk(s', chunks, popped, fifo) && IoOk(s', pending, chunks, popped, fifo)
  {
    hide OnDevice;
    assert OwedOk(s, pending, chunks[popped + k], fifo[k]);
    forall i | 0 <= i < |fifo|
      ensures OwedOk(s', pending, chunks[popped + i], fifo[i])
      ensures fifo[i].completed && fifo[i].ok ==> OnDevice(s', chunks[popped + i])
    {
      assert OwedOk(s, pending, chunks[popped + i], fifo[i]);
    }
  }

  /** The device finishes a queued group: only a whole write may be reported whole. */
  lemma CompleteKeeps(p: Pipe, k: nat, res: int)
    requires Inv(p) && k < |p.fifo| && p.fifo[k].token in p.pending && p.pending[p.fifo[k].token].Queued?
    requires res == p.fifo[k].len ==> OnDevice(Seg(p), p.chunks[p.popped + k])
    ensures var t := p.fifo[k].token;
            Inv(p.(pending := p.pending[t := Done(Completion(t, res, p.fifo[k].len))]))
  {
    hide Placed, OnDevice, InBuffer, Growing, Filling, Plan, IoOk, DistinctTokens, FlyingOk;
    var t := p.fifo[k].token;
    var q := p.(pending := p.pending[t := Done(Completion(t, res, p.fifo[k].len))]);
    assert Cur(q) == Cur(p) && Seg(q) == Seg(p);
    TokensDistinct(p);
    CompleteIo(Seg(p), p.pending, p.chunks, p.popped, p.fifo, k, res);
  }

  lemma CompleteIo(s: Segment, pending: map<U64, IoState>, chunks: seq<Chunk>, popped: nat,
                   fifo: seq<InflightGroup>, k: nat, res: int)
    requires IoOk(s, pending, chunks, popped, fifo) && DistinctTokens(fifo)
    requires k < |fifo| && fifo[k].token in pending && pending[fifo[k].token].Queued?
    requires res == fifo[k].len ==> OnDevice(s, chunks[popped + k])
    ensures var t := fifo[k].token;
            IoOk(s, pending[t := Done(Completion(t, res, fifo[k].len))], chunks, popped, fifo)
  {
    hide OnDevice;
    forall i | 0 <= i < |fifo|
      ensures var t := fifo[k].token;
              OwedOk(s, pending[t := Done(Completion(t, res, fifo[k].len))], chunks[popped + i], fifo[i])
    {
      assert OwedOk(s, pending, chunks[popped + i], fifo[i]);
    }
  }

  // ---------------------------------------------------------------- what the device may do

  /** A queued request is a group in flight: in bounds, past the segment header. */
  lemma QueuedGroup(p: Pipe, token: U64) returns (k: nat)
    requires Inv(p) && token in p.pending && p.pending[token].Queued?
    ensures k < |p.fifo| && p.fifo[k].token == token && p.popped + k < |p.chunks| && p.fifo[k].bufIdx < |p.rows|
    ensures var c := p.chunks[p.popped + k];
            && p.pending[token].req == WriteRequest(p.fifo[k].bufIdx, c.off, token, c.end - c.off)
            && c.end - c.off == p.fifo[k].len <= MAX_GROUP_BYTES && SEGMENT_HDR_BYTES <= c.off
            && FlyingOk(p.cs, p.rows[p.fifo[k].bufIdx], c, p.fifo[k]) && Placed(c, p.epoch, p.block)
  {
    hide Placed, OnDevice, InBuffer, Growing, Filling, Plan;
    k :| 0 <= k < |p.fifo| && p.fifo[k].token == token;
    assert OwedOk(Seg(p), p.pending, p.chunks[p.popped + k], p.fifo[k]);
    assert FlyingOk(p.cs, p.rows[p.fifo[k].bufIdx], p.chunks[p.popped + k], p.fifo[k]);
    PlanSize(p.chunks, p.epoch, p.block, p.popped + k);
    PlanPastHeader(p.chunks, p.epoch, p.block, p.popped + k);
  }

  lemma {:induction false} PlanPastHeader(cs: seq<Chunk>, epoch: U32, block: Block, i: nat)
    requires Plan(cs, epoch, block) && i < |cs|
    ensures SEGMENT_HDR_BYTES <= cs[i].off
  {
    hide Contiguous, RecordsEnd, PadToBlock;
    if i > 0 {
      PlanOrder(cs, epoch, block, 0, i);
    }
  }

  lemma ScribbleKeeps(p: Pipe, token: U64, w: seq<Byte>)
    requires Inv(p) && token in p.pending && p.pending[token].Queued? && |w| <= p.pending[token].req.len
    ensures Inv(p.(file := WriteAt(p.file, p.pending[token].req.offset, w)))
    ensures SEGMENT_HDR_BYTES <= p.pending[token].req.offset
  {
    hide Inv, Placed, FlyingOk;
    var k := QueuedGroup(p, token);
    PartialKeeps(p, k, w);
  }

  /** The file after a completion with result `res`: a whole write puts every byte of the buffer there. */
  function CompletedFile(p: Pipe, req: WriteRequest, res: int): seq<Byte>
    requires req.bufIdx < |p.rows| && req.len <= MAX_GROUP_BYTES
  {
    if res == req.len then WriteAt(p.file, req.offset, p.rows[req.bufIdx][..req.len]) else p.file
  }

  lemma CompletionKeeps(p: Pipe, token: U64, res: int)
    requires Inv(p) && token in p.pending && p.pending[token].Queued?
    ensures var req := p.pending[token].req;
            && req.bufIdx < |p.rows| && req.len <= MAX_GROUP_BYTES && SEGMENT_HDR_BYTES <= req.offset
            && Inv(p.(file := CompletedFile(p, req, res),
                      pending := p.pending[token := Done(Completion(token, res, req.len))]))
  {
    hide Inv, Placed, OnDevice, InBuffer;
    var k := QueuedGroup(p, token);
    var req, c := p.pending[token].req, p.chunks[p.popped + k];
    var q := p.(file := CompletedFile(p, req, res));
    if res == req.len {
      PartialKeeps(p, k, p.rows[req.bufIdx][..req.len]);
      Lands(Seg(p), c, p.rows[req.bufIdx], q.file);
      assert Seg(q) == Seg(p).(bytes := q.file);
    }
    CompleteKeeps(q, k, res);
  }

  // ---------------------------------------------------------------- what durability means

  /** The groups known durable are a log on the device. */
  lemma DurableHeld(p: Pipe)
    requires Inv(p) && NextFirst(p.chunks) < 0x1_0000_0000_0000_0000
    ensures p.popped <= |p.chunks| && LogHeld(Seg(p), p.chunks[..p.popped])
    ensures NextFirst(p.chunks[..p.popped]) <= NextFirst(p.chunks)
  {
    hide Placed, InBuffer, Growing, Filling, ChunkHeld, OwedOk, FlyingOk;
    var cs := p.chunks[..p.popped];
    if p.chunks != [] {
      PlanFirst(p.chunks, p.epoch, p.block, |p.chunks| - 1);
    }
    if p.popped > 0 {
      PlanFirst(p.chunks, p.epoch, p.block, p.popped - 1);
    }
    assert Linked(p.chunks);
    assert forall j :: 0 <= j < p.popped ==> cs[j] == p.chunks[j];
    forall j | 0 <= j < p.popped
      ensures ChunkHeld(Seg(p), cs[j])
    {
      assert OnDevice(Seg(p), p.chunks[j]);
    }
  }
}
