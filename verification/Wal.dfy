/** The write-ahead log: LSN assignment, forced submission of a full group, and what durability promises. */
module WriteAheadLog {
  import opened Bytes
  import opened Status
  import opened WalFormat
  import opened SegmentReading
  import opened LogRoundTrip
  import opened InflightGroups
  import opened CommitLayout
  import opened CommitInvariant
  import opened GroupCommitting

  /** One past the last LSN a log of 64-bit numbers may reach. */
  const LSN_LIMIT := 0xFFFF_FFFF_FFFF_FFFF

  class Wal {
    const group: GroupCommit
    const partition: U16
    const capacity: U64
    var lastLsn: U64
    var segOffset: nat
    var halted: bool

    /** Every record ever appended, in order, with the offset it has or will have in the segment. */
    ghost function Logged(): seq<Entry>
      reads this, group
    {
      AllEntries(group.chunks) + group.cur
    }

    ghost predicate Valid()
      reads this, group, group.pool, group.dev, group.ring
    {
      && group.Valid()
      && segOffset == DataEnd(group.chunks)
      && lastLsn == NextFirst(group.chunks) + |group.cur| - 1 && lastLsn < LSN_LIMIT
      && Holds(group.dev.file, 0, SegmentHeader(group.cs, partition, group.epoch, 1, capacity, group.block))
    }

    /** A new segment from LSN 1: its header on the device, nothing else. */
    constructor (cs: Checksum, partition: U16, epoch: U32, block: nat, window: U64, capacity: U64)
      ensures Valid() && fresh(group) && fresh(group.pool) && fresh(group.dev) && fresh(group.ring)
      ensures Logged() == [] && lastLsn == 0 && group.durable == 0 && !Halted()
      ensures group.cs == cs && group.epoch == epoch && this.partition == partition && this.capacity == capacity
    {
      hide Inv, InflightRing.Valid, SegmentHeader;
      var b: Block := if ValidBlock(block) then block else FALLBACK_BLOCK;
      var pool := new BufferPool();
      var dev := new Device(pool, SegmentHeader(cs, partition, epoch, 1, capacity, b));
      group := new GroupCommit(cs, epoch, b, window, pool, dev);
      this.partition, this.capacity := partition, capacity;
      lastLsn, segOffset, halted := 0, SEGMENT_HDR_BYTES, false;
    }

    predicate Halted()
      reads this, group
    {
      halted || group.halted
    }

    /** Hands the current group over when it is due; no record moves. */
    method Submit(now: U64, force: bool) returns (st: Err, wrote: nat)
      requires Valid()
      modifies `segOffset, group, group.pool, group.dev, group.ring
      ensures Valid() && Logged() == old(Logged())
      ensures group.durable == old(group.durable) && group.halted == old(group.halted)
      ensures old(group.halted) ==> st == IoError
      ensures !old(group.halted) ==> (st == Ok <==> group.dev.refusals == old(group.dev.refusals))
      ensures st == Ok && force ==> group.cur == []
      ensures wrote > 0 ==> group.curLen == 0
      ensures wrote == 0 ==> group.curLen == old(group.curLen) && group.curBuf == old(group.curBuf)
      ensures wrote == 0 && st == Ok && force ==> old(group.curLen) == 0
      ensures st == Ok ==> !group.Late(now) && !group.IsFull()
      ensures !old(group.halted) && !force && !old(group.Late(now)) && !old(group.IsFull()) ==>
                st == Ok && wrote == 0 && group.cur == old(group.cur) && group.chunks == old(group.chunks)
    {
      hide Inv, InflightRing.Valid, SegmentHeader, GroupCommit.Late, GroupCommit.IsFull, AllEntries, DataEnd, NextFirst;
      Shape(group.Pipe());
      ghost var c := Chunk(segOffset, NextFirst(group.chunks), group.cur, segOffset);
      st, wrote := group.MaybeSubmit(now, segOffset, force);
      segOffset := segOffset + wrote;
      if wrote > 0 {
        AllEntriesSnoc(old(group.chunks), c.(end := segOffset));
      }
    }

    /** Appends under the next LSN. A full group is submitted to make room and the append tried once more.
        Whatever the outcome, no record is lost, repeated or renumbered. */
    method Append(tmpl: U16, payload: seq<Byte>, ts: U64) returns (r: Err, lsn: U64)
      requires Valid() && lastLsn + 1 < LSN_LIMIT
      modifies this, group, group.pool, group.dev, group.ring
      ensures Valid() && Halted() == old(Halted()) && group.durable == old(group.durable)
      ensures r == Ok ==> lsn == lastLsn == old(lastLsn) + 1
      ensures r == Ok ==> Appended(old(Logged()), Logged(), Record(lastLsn, ts, group.epoch, tmpl, payload))
      ensures r != Ok ==> lastLsn == old(lastLsn) && Logged() == old(Logged())
      ensures r == Ok || r == WalFull || r == OutOfRange || r == IoError
      ensures r == IoError <==> old(Halted())
      ensures r == OutOfRange <==> !old(Halted()) && RecordBytes(|payload|) > MAX_GROUP_BYTES
      ensures r == WalFull ==> old(group.NoRoom(|payload|))
      ensures r == Ok ==> group.dev.refusals == old(group.dev.refusals)
      ensures r == WalFull && group.dev.refusals == old(group.dev.refusals) ==> group.curBuf >= MAX_BUFFERS
    {
      hide GroupCommit.Valid, SegmentHeader, RecordBytes;
      lsn := 0;
      if halted {
        return IoError, 0;
      }
      r := TryAppend(tmpl, payload, ts);
      if r == WalFull {
        var st, wrote := Submit(ts, true);
        if st == Ok && wrote > 0 {
          r := TryAppend(tmpl, payload, ts);
        }
      }
      if r == Ok {
        lsn := lastLsn;
      }
    }

    method TryAppend(tmpl: U16, payload: seq<Byte>, ts: U64) returns (r: Err)
      requires Valid() && lastLsn + 1 < LSN_LIMIT
      modifies `lastLsn, group, group.pool
      ensures Valid() && group.halted == old(group.halted) && group.durable == old(group.durable)
      ensures r == Ok || r == IoError || r == OutOfRange || r == WalFull
      ensures r == IoError <==> old(group.halted)
      ensures r == OutOfRange <==> !old(group.halted) && group.TooLong(|payload|)
      ensures r == WalFull <==>
                !old(group.halted) && !group.TooLong(|payload|) && old(group.NoRoom(|payload|))
      ensures r == Ok ==> lastLsn == old(lastLsn) + 1
      ensures r == Ok ==> Appended(old(Logged()), Logged(), Record(lastLsn, ts, group.epoch, tmpl, payload))
      ensures r != Ok ==> unchanged(this) && unchanged(group) && unchanged(group.pool)
    {
      hide Inv, InflightRing.Valid, SegmentHeader;
      r := group.Append(tmpl, payload, ts, lastLsn + 1);
      if r == Ok {
        lastLsn := lastLsn + 1;
        ghost var e := group.cur[|old(group.cur)|];
        assert Logged() == old(Logged()) + [e];
      }
    }

    method MaybeSubmit(now: U64) returns (st: Err)
      requires Valid()
      modifies this, group, group.pool, group.dev, group.ring
      ensures Valid() && Logged() == old(Logged()) && lastLsn == old(lastLsn)
      ensures group.durable == old(group.durable)
      ensures old(Halted()) ==> st == IoError && Halted()
      ensures !old(Halted()) ==>
                (st == Ok <==> !Halted()) && (Halted() <==> group.dev.refusals != old(group.dev.refusals))
      ensures st == Ok ==> !group.Late(now) && !group.IsFull()
      ensures !old(Halted()) && !old(group.Late(now)) && !old(group.IsFull()) ==>
                st == Ok && group.cur == old(group.cur) && group.chunks == old(group.chunks)
    {
      hide GroupCommit.Valid, SegmentHeader, GroupCommit.Late, GroupCommit.IsFull;
      if halted {
        return IoError;
      }
      var wrote;
      st, wrote := Submit(now, false);
      if st != Ok {
        halted := true;
      }
    }

    method Reap() returns (st: Err)
      requires Valid()
      modifies this, group, group.dev, group.ring
      ensures Valid() && Logged() == old(Logged()) && lastLsn == old(lastLsn)
      ensures group.durable >= old(group.durable)
      ensures group.cur == old(group.cur) && group.curLen == old(group.curLen)
      ensures !Halted() ==> group.Settled()
      ensures st == if Halted() then IoError else Ok
      ensures old(Halted()) ==> Halted()
    {
      hide Inv, InflightRing.Valid, SegmentHeader;
      if halted {
        return IoError;
      }
      st := group.Reap();
      if st != Ok {
        halted := true;
      }
    }

    /** Submits whatever is gathered, due or not, and reaps. */
    method ForceCommit(now: U64) returns (st: Err)
      requires Valid()
      modifies this, group, group.pool, group.dev, group.ring
      ensures Valid() && Logged() == old(Logged()) && lastLsn == old(lastLsn)
      ensures group.durable >= old(group.durable)
      ensures st == Ok ==> group.cur == [] && !Halted()
      ensures old(Halted()) ==> st == IoError && Halted()
    {
      hide GroupCommit.Valid, SegmentHeader;
      if halted {
        return IoError;
      }
      var wrote;
      st, wrote := Submit(now, true);
      if st != Ok {
        halted := true;
        return;
      }
      st := Reap();
    }
  }

  /** One record more, after all the others. */
  ghost predicate Appended(before: seq<Entry>, after: seq<Entry>, r: Record) {
    |after| == |before| + 1 && before == after[..|before|] && after[|before|].record == r
  }

  lemma AllEntriesSnoc(cs: seq<Chunk>, c: Chunk)
    ensures AllEntries(cs + [c]) == AllEntries(cs) + c.es
    ensures DataEnd(cs + [c]) == c.end && NextFirst(cs + [c]) == c.first + |c.es|
  {
    assert (cs + [c])[..|cs|] == cs;
  }

  // ---------------------------------------------------------------- what durability promises

  lemma {:induction false} EntriesPrefix(cs: seq<Chunk>, k: nat)
    requires k <= |cs|
    ensures AllEntries(cs[..k]) <= AllEntries(cs)
    decreases |cs|
  {
    if k < |cs| {
      var init := cs[..|cs| - 1];
      EntriesPrefix(init, k);
      assert init[..k] == cs[..k];
    } else {
      assert cs[..k] == cs;
    }
  }

  /** Reading the device back, whatever lies past the durable groups, yields every durable record in order. */
  lemma DurableIsRead(p: Pipe)
    requires Inv(p) && NextFirst(p.chunks) < 0x1_0000_0000_0000_0000
    ensures p.popped <= |p.chunks| && 0 <= DurableLsn(p.chunks, p.popped) <= |AllEntries(p.chunks)|
    ensures AllEntries(p.chunks)[..DurableLsn(p.chunks, p.popped)] <= ReadSegment(Seg(p)).entries
  {
    hide Inv, LogHeld, ReadSegment;
    DurableHeld(p);
    var cs := p.chunks[..p.popped];
    AnyTail(Seg(p), cs);
    EntryCount(Seg(p), cs);
    EntriesPrefix(p.chunks, p.popped);
    assert |AllEntries(cs)| == DurableLsn(p.chunks, p.popped);
    assert AllEntries(p.chunks)[..|AllEntries(cs)|] == AllEntries(cs);
  }

  /** Records are numbered 1, 2, 3, … in the order they were appended. */
  lemma {:induction false} PlanNumbered(cs: seq<Chunk>, epoch: U32, block: Block)
    requires Plan(cs, epoch, block)
    ensures |AllEntries(cs)| == NextFirst(cs) - 1
    ensures forall i :: 0 <= i < |AllEntries(cs)| ==> AllEntries(cs)[i].record.lsn == i + 1
    decreases |cs|
  {
    hide PadToBlock;
    if cs != [] {
      var init, c := cs[..|cs| - 1], cs[|cs| - 1];
      PlanNumbered(init, epoch, block);
      assert c.first == NextFirst(init);
      assert Contiguous(c, epoch) && AllEntries(cs) == AllEntries(init) + c.es;
    }
  }

  /** The numbers of all records, submitted or still being gathered. */
  lemma LoggedNumbered(p: Pipe)
    requires Inv(p)
    ensures var all := AllEntries(p.chunks) + p.cur;
            && |all| == NextFirst(p.chunks) + |p.cur| - 1
            && forall i :: 0 <= i < |all| ==> all[i].record.lsn == i + 1
  {
    hide Plan, Filling, FlightOk, DiskOk, IoOk, AllEntries;
    PlanNumbered(p.chunks, p.epoch, p.block);
    assert Contiguous(Cur(p), p.epoch);
  }

  /** Durability: at any moment, the device's file opens as a segment of this epoch and yields, first and in
      order, every record up to the durable LSN. */
  lemma DurableRecovered(w: Wal)
    requires w.Valid()
    ensures OpenSegment(w.group.cs, w.group.dev.file, 1) == Opened(w.group.epoch, 1, w.group.block)
    ensures 0 <= w.group.durable <= w.lastLsn == |w.Logged()|
    ensures w.Logged()[..w.group.durable] <= ReadSegment(Seg(w.group.Pipe())).entries
    ensures forall i :: 0 <= i < |w.Logged()| ==> w.Logged()[i].record.lsn == i + 1
  {
    hide Inv, InflightRing.Valid, SegmentHeader, OpenSegment, ReadSegment, AllEntries;
    var g := w.group;
    SegmentOpens(g.cs, g.dev.file, w.partition, g.epoch, 1, w.capacity, g.block, 1);
    LoggedNumbered(g.Pipe());
    DurableIsRead(g.Pipe());
    assert w.Logged()[..g.durable] == AllEntries(g.chunks)[..g.durable];
  }

  lemma PipeReads(p: Pipe)
    requires Inv(p) && NextFirst(p.chunks) < 0x1_0000_0000_0000_0000 && p.popped == |p.chunks|
    requires ZerosHeld(Seg(p), DataEnd(p.chunks), |p.file|)
    ensures ReadSegment(Seg(p)) == Replay(AllEntries(p.chunks), Clean, DataEnd(p.chunks))
  {
    hide Inv, LogHeld, ReadSegment, ZerosHeld;
    DurableHeld(p);
    assert p.chunks[..p.popped] == p.chunks;
    RoundTrip(Seg(p), p.chunks);
  }

  /** Once every group is durable and nothing but zeros lies past them, reading back gives exactly what was appended,
      stops clean, and would resume at the writer's own offset. */
  lemma CleanReadBack(w: Wal)
    requires w.Valid() && w.group.popped == |w.group.chunks| && w.group.cur == []
    requires ZerosHeld(Seg(w.group.Pipe()), w.segOffset, |w.group.dev.file|)
    ensures ReadSegment(Seg(w.group.Pipe())) == Replay(w.Logged(), Clean, w.segOffset)
  {
    hide Inv, InflightRing.Valid, SegmentHeader, ReadSegment, AllEntries, ZerosHeld;
    PipeReads(w.group.Pipe());
    assert w.Logged() == AllEntries(w.group.chunks);
  }

  /** The device leaves anything at all in the range of an unfinished request. */
  method DeviceScribbles(w: Wal, token: U64, bytes: seq<Byte>)
    requires w.Valid() && token in w.group.dev.pending && w.group.dev.pending[token].Queued?
    requires |bytes| <= w.group.dev.pending[token].req.len
    modifies w.group.dev
    ensures w.Valid() && w.group.dev.pending == old(w.group.dev.pending)
  {
    hide Inv, InflightRing.Valid, SegmentHeader;
    ghost var p := w.group.Pipe();
    ScribbleKeeps(p, token, bytes);
    HeaderStays(p.file, SegmentHeader(p.cs, w.partition, p.epoch, 1, w.capacity, p.block),
                p.pending[token].req.offset, bytes);
    w.group.dev.Scribble(token, bytes);
    assert w.group.Pipe() == p.(file := WriteAt(p.file, p.pending[token].req.offset, bytes));
  }

  /** The device finishes a request, in whatever order, wholly, partly or with an error. */
  method DeviceCompletes(w: Wal, token: U64, res: int)
    requires w.Valid() && token in w.group.dev.pending && w.group.dev.pending[token].Queued?
    modifies w.group.dev
    ensures w.Valid()
  {
    hide Inv, InflightRing.Valid, SegmentHeader;
    ghost var p := w.group.Pipe();
    ghost var req := p.pending[token].req;
    CompletionKeeps(p, token, res);
    HeaderStays(p.file, SegmentHeader(p.cs, w.partition, p.epoch, 1, w.capacity, p.block),
                req.offset, p.rows[req.bufIdx][..req.len]);
    w.group.dev.Complete(token, res);
    assert w.group.Pipe() == p.(file := CompletedFile(p, req, res),
                                pending := p.pending[token := Done(Completion(token, res, req.len))]);
  }

  lemma HeaderStays(f: seq<Byte>, h: seq<Byte>, off: nat, b: seq<Byte>)
    requires Holds(f, 0, h) && |h| <= off
    ensures Holds(WriteAt(f, off, b), 0, h)
  {
    WriteKeeps(f, off, b, 0, |h|);
  }

  // ---------------------------------------------------------------- whole runs

  datatype Step =
    | DoAppend(tmpl: U16, payload: seq<Byte>, ts: U64)
    | DoSubmit(now: U64)
    | DoReap
    | DoForce(now: U64)
    | DevScribble(token: U64, bytes: seq<Byte>)
    | DevComplete(token: U64, res: int)

  /** One step of the log or of the device; a device step about a request it does not have is no step. */
  method Take(w: Wal, s: Step)
    requires w.Valid() && w.lastLsn + 1 < LSN_LIMIT
    modifies w, w.group, w.group.pool, w.group.dev, w.group.ring
    ensures w.Valid() && w.lastLsn <= old(w.lastLsn) + 1
    ensures w.group.durable >= old(w.group.durable) && old(w.Logged()) <= w.Logged()
    ensures old(w.Halted()) ==> w.Halted() && w.Logged() == old(w.Logged())
  {
    hide Wal.Valid;
    match s
    case DoAppend(tmpl, payload, ts) =>
      var r, _ := w.Append(tmpl, payload, ts);
    case DoSubmit(now) =>
      var _ := w.MaybeSubmit(now);
    case DoReap =>
      var _ := w.Reap();
    case DoForce(now) =>
      var _ := w.ForceCommit(now);
    case DevScribble(token, bytes) =>
      var dev := w.group.dev;
      if token in dev.pending && dev.pending[token].Queued? && |bytes| <= dev.pending[token].req.len {
        DeviceScribbles(w, token, bytes);
      }
    case DevComplete(token, res) =>
      if token in w.group.dev.pending && w.group.dev.pending[token].Queued? {
        DeviceCompletes(w, token, res);
      }
  }

  /** Any interleaving of log calls and device behaviour: durability only advances, records are only added,
      and whatever moment the run is stopped at, the file yields every record that was ever durable. */
  method DriveLog(w: Wal, steps: seq<Step>)
    requires w.Valid() && w.lastLsn + |steps| < LSN_LIMIT
    modifies w, w.group, w.group.pool, w.group.dev, w.group.ring
    ensures w.Valid() && old(w.Logged()) <= w.Logged()
    ensures old(w.group.durable) <= w.group.durable <= w.lastLsn == |w.Logged()|
    ensures w.Logged()[..w.group.durable] <= ReadSegment(Seg(w.group.Pipe())).entries
  {
    hide Wal.Valid, ReadSegment;
    var i := 0;
    while i < |steps|
      invariant 0 <= i <= |steps| && w.Valid() && w.lastLsn + |steps| - i < LSN_LIMIT
      invariant old(w.group.durable) <= w.group.durable && old(w.Logged()) <= w.Logged()
    {
      Take(w, steps[i]);
      i := i + 1;
    }
    DurableRecovered(w);
  }
}
