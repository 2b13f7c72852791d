/** Group commit: records gathered into a buffer, groups handed to the device, completions in any order,
    durability in FIFO order. */
module GroupCommitting {
  import opened Bytes
  import opened Status
  import opened WalFormat
  import SegmentReading
  import opened LogRoundTrip
  import opened InflightGroups
  import opened CommitLayout
  import opened CommitInvariant

  /** An asynchronous device. It may refuse a request; until a request completes it may leave any bytes at all
      in the range asked for; it reads the registered buffer when it completes, not when it is asked to; and it
      reports completions in any order, late, short or failed. Only a whole write is reported as whole. */
  class Device {
    const pool: BufferPool
    var file: seq<Byte>
    var pending: map<U64, IoState>
    ghost var refusals: nat

    constructor (pool: BufferPool, file: seq<Byte>)
      ensures this.pool == pool && this.file == file && pending == map[]
    {
      this.pool := pool;
      refusals := 0;
      this.file := file;
      pending := map[];
    }

    method Submit(req: WriteRequest) returns (st: Err)
      modifies this
      ensures st == Ok || st == WalFull || st == IoError
      ensures file == old(file) && refusals == old(refusals) + (if st == Ok then 0 else 1)
      ensures pending == if st == Ok then old(pending)[req.token := Queued(req)] else old(pending)
    {
      var verdict: Err := *;
      if verdict == WalFull || verdict == IoError {
        refusals := refusals + 1;
        return verdict;
      }
      pending := pending[req.token := Queued(req)];
      return Ok;
    }

    /** Some bytes of an unfinished request reach its range of the file, in whatever shape. */
    method Scribble(token: U64, bytes: seq<Byte>)
      requires token in pending && pending[token].Queued? && |bytes| <= pending[token].req.len
      modifies this
      ensures pending == old(pending) && refusals == old(refusals)
      ensures file == WriteAt(old(file), pending[token].req.offset, bytes)
    {
      file := WriteAt(file, pending[token].req.offset, bytes);
    }

    /** The request ends with result `res`; a result equal to the length means every byte was written. */
    method Complete(token: U64, res: int)
      requires token in pending && pending[token].Queued?
      requires pending[token].req.bufIdx < |pool.rows| && pending[token].req.len <= MAX_GROUP_BYTES
      modifies this
      ensures var req := old(pending)[token].req;
              && file == (if res == req.len then WriteAt(old(file), req.offset, pool.rows[req.bufIdx][..req.len])
                          else old(file))
              && pending == old(pending)[token := Done(Completion(token, res, req.len))]
              && refusals == old(refusals)
    {
      var req := pending[token].req;
      if res == req.len {
        file := WriteAt(file, req.offset, pool.rows[req.bufIdx][..req.len]);
      }
      pending := pending[token := Done(Completion(token, res, req.len))];
    }

    /** The finished requests, each reported once, in any order, until there is no room for more. */
    method Collect() returns (out: seq<Completion>)
      requires forall t :: t in pending && pending[t].Done? ==> pending[t].c.token == t
      modifies this
      ensures |out| <= MAX_INFLIGHT && file == old(file) && refusals == old(refusals)
      ensures forall i :: 0 <= i < |out| ==>
                out[i].token in old(pending) && old(pending)[out[i].token] == Done(out[i])
      ensures forall i, j :: 0 <= i < j < |out| ==> out[i].token != out[j].token
      ensures pending == old(pending) - TokensOf(out)
      ensures |out| < MAX_INFLIGHT ==> forall t :: t in pending ==> pending[t].Queued?
    {
      out := [];
      while |out| < MAX_INFLIGHT && exists t :: t in pending && pending[t].Done?
        invariant |out| <= MAX_INFLIGHT && file == old(file) && refusals == old(refusals)
        invariant forall i :: 0 <= i < |out| ==>
                    out[i].token in old(pending) && old(pending)[out[i].token] == Done(out[i])
        invariant forall i, j :: 0 <= i < j < |out| ==> out[i].token != out[j].token
        invariant pending == old(pending) - TokensOf(out)
      {
        var t :| t in pending && pending[t].Done?;
        assert forall i :: 0 <= i < |out| ==> out[i].token in TokensOf(out);
        TokensSnoc(out, pending[t].c);
        out := out + [pending[t].c];
        pending := pending - {t};
      }
    }
  }

  function TokensOf(out: seq<Completion>): set<U64> {
    set i | 0 <= i < |out| :: out[i].token
  }

  lemma TokensSnoc(out: seq<Completion>, c: Completion)
    ensures TokensOf(out + [c]) == TokensOf(out) + {c.token}
  {
    var all := out + [c];
    assert forall i :: 0 <= i < |out| ==> all[i] == out[i];
    assert all[|out|] == c;
    forall t | t in TokensOf(out) + {c.token}
      ensures t in TokensOf(all)
    {
      if t == c.token {
        assert all[|out|].token == t;
      } else {
        var i :| 0 <= i < |out| && out[i].token == t;
        assert all[i].token == t;
      }
    }
  }

  lemma {:induction false} TokensCount(out: seq<Completion>)
    requires forall i, j :: 0 <= i < j < |out| ==> out[i].token != out[j].token
    ensures |TokensOf(out)| == |out|
  {
    if out == [] {
      assert TokensOf(out) == {};
    } else {
      var init, c := out[..|out| - 1], out[|out| - 1];
      TokensCount(init);
      TokensSnoc(init, c);
      assert out == init + [c];
    }
  }

  /** No more is reported than was asked for. */
  lemma CollectedFew(out: seq<Completion>, owed: map<U64, IoState>)
    requires |owed.Keys| <= MAX_BUFFERS
    requires forall i :: 0 <= i < |out| ==> out[i].token in owed
    requires forall i, j :: 0 <= i < j < |out| ==> out[i].token != out[j].token
    ensures |out| <= MAX_BUFFERS
  {
    TokensCount(out);
    assert TokensOf(out) <= owed.Keys;
    Subset(TokensOf(out), owed.Keys);
  }

  function Deadline(ts: U64, window: U64): U64 {
    if ts + window < 0x1_0000_0000_0000_0000 then ts + window else ts + window - 0x1_0000_0000_0000_0000
  }

  /** The clock is a 64-bit counter. */
  lemma DeadlineWraps(ts: U64, window: U64)
    ensures Deadline(ts, window) == (ts + window) % 0x1_0000_0000_0000_0000
  {
  }

  /** What the oldest groups, all completed in full, end with; zero before the first of them. */
  function DurableLsn(chunks: seq<Chunk>, popped: nat): int
    requires popped <= |chunks|
  {
    if popped == 0 then 0 else LastLsn(chunks[popped - 1])
  }

  class GroupCommit {
    const cs: Checksum
    const epoch: U32
    const block: Block
    const window: U64
    const pool: BufferPool
    const dev: Device
    const ring: InflightRing
    var bufFree: seq<bool>
    var curBuf: nat
    var curLen: nat
    var curDeadline: U64
    var curLast: U64
    var durable: U64
    var halted: bool
    /** Records of the group being filled, and every group submitted so far, the first `popped` of them durable. */
    ghost var cur: seq<SegmentReading.Entry>
    ghost var chunks: seq<Chunk>
    ghost var popped: nat

    ghost function Pipe(): Pipe
      reads this, pool, dev, ring
    {
      CommitInvariant.Pipe(cs, epoch, block, pool.rows, bufFree, curBuf, curLen, cur, dev.file, chunks, popped,
                           ring.fifo, dev.pending)
    }

    ghost predicate Valid()
      reads this, pool, dev, ring
    {
      && dev.pool == pool && ring.Valid()
      && Inv(Pipe())
      && (cur != [] ==> curLast == NextFirst(chunks) + |cur| - 1)
      && (cur != [] ==> curDeadline == Deadline(cur[0].record.ts, window))
      && popped <= |chunks| && durable == DurableLsn(chunks, popped)
      && (forall k :: 0 <= k < |ring.fifo| && ring.fifo[k].completed && !ring.fifo[k].ok ==> halted)
    }

    constructor (cs: Checksum, epoch: U32, block: Block, window: U64, pool: BufferPool, dev: Device)
      requires dev.pool == pool && dev.pending == map[]
      requires pool.rows == seq(MAX_BUFFERS, _ => Zeros(MAX_GROUP_BYTES))
      ensures Valid() && fresh(ring) && this.pool == pool && this.dev == dev
      ensures this.cs == cs && this.epoch == epoch && this.block == block && this.window == window
      ensures chunks == [] && cur == [] && popped == 0 && durable == 0 && !halted
    {
      this.cs, this.epoch, this.block, this.window, this.pool, this.dev := cs, epoch, block, window, pool, dev;
      ring := new InflightRing();
      bufFree := seq(MAX_BUFFERS, _ => true);
      curBuf, curLen, curDeadline, curLast, durable, halted := 0, 0, 0, 0, 0, false;
      cur, chunks, popped := [], [], 0;
      new;
      InitiallyHolds(Pipe());
    }

    /** Is a payload of `n` bytes too long for a record, or a record of it for a group? */
    predicate TooLong(n: nat) {
      n > MAX_PAYLOAD || RecordBytes(n) > MAX_GROUP_BYTES
    }

    /** Is there no buffer to gather in, or no room left in it for a record of `n` bytes of payload? */
    predicate NoRoom(n: nat)
      reads this
    {
      curBuf >= MAX_BUFFERS || (curLen > 0 && curLen + RecordBytes(n) > MAX_GROUP_BYTES)
    }

    /** A record goes whole after the last one of the current group, or nothing changes at all. */
    method Append(tmpl: U16, payload: seq<Byte>, ts: U64, lsn: U64) returns (r: Err)
      requires Valid() && lsn == NextFirst(chunks) + |cur|
      modifies this, pool
      ensures Valid() && (r == Ok || r == IoError || r == OutOfRange || r == WalFull)
      ensures r == IoError <==> old(halted)
      ensures r == OutOfRange <==> !old(halted) && TooLong(|payload|)
      ensures r == WalFull <==> !old(halted) && !TooLong(|payload|) && old(NoRoom(|payload|))
      ensures r != Ok ==> unchanged(this) && unchanged(pool)
      ensures r == Ok ==>
        cur == old(cur) + [SegmentReading.Entry(DataEnd(chunks) + old(curLen), Record(lsn, ts, epoch, tmpl, payload))]
      ensures chunks == old(chunks) && popped == old(popped) && durable == old(durable) && halted == old(halted)
    {
      hide Inv, RecordBytes, InflightRing.Valid, DataEnd, NextFirst, DurableLsn, Deadline;
      Shape(Pipe());
      if halted {
        return IoError;
      }
      if |payload| > MAX_PAYLOAD {
        return OutOfRange;
      }
      var recLen := RecordBytes(|payload|);
      if recLen > MAX_GROUP_BYTES {
        return OutOfRange;
      }
      if curBuf >= MAX_BUFFERS {
        return WalFull;
      }
      if curLen > 0 && curLen + recLen > MAX_GROUP_BYTES {
        return WalFull;
      }
      Gather(Record(lsn, ts, epoch, tmpl, payload));
      return Ok;
    }

    /** The second half of an append. The first record of a group sets the time the group is due. */
    method Gather(rec: Record)
      requires Valid() && !TooLong(|rec.payload|) && !NoRoom(|rec.payload|)
      requires rec.lsn == NextFirst(chunks) + |cur| && rec.epoch == epoch
      modifies this, pool
      ensures Valid() && cur == old(cur) + [SegmentReading.Entry(DataEnd(chunks) + old(curLen), rec)]
      ensures chunks == old(chunks) && popped == old(popped) && durable == old(durable) && halted == old(halted)
    {
      hide Inv, Sealed, RecordBytes, InflightRing.Valid, DataEnd, NextFirst, DurableLsn, Deadline;
      ghost var p := Pipe();
      Shape(p);
      var row := Sealed(cs, pool.rows[curBuf], curLen, rec);
      FillKeeps(p, rec);
      pool.rows := pool.rows[curBuf := row];
      cur := cur + [SegmentReading.Entry(DataEnd(chunks) + curLen, rec)];
      if curLen == 0 {
        curDeadline := Deadline(rec.ts, window);
      }
      curLen := curLen + RecordBytes(|rec.payload|);
      curLast := rec.lsn;
      assert Pipe() == Filled(p, rec);
    }

    /** Has the oldest record gathered waited out the window? */
    ghost predicate Late(now: U64)
      reads this
    {
      cur != [] && now >= Deadline(cur[0].record.ts, window)
    }

    predicate IsFull()
      reads this
    {
      curLen == MAX_GROUP_BYTES
    }

    /** A group that is late, full or forced is padded to the block and handed over; a refusal leaves it current. One
        that is none of these is left alone. */
    method MaybeSubmit(now: U64, fileOffset: nat, force: bool) returns (st: Err, wrote: nat)
      requires Valid() && fileOffset == DataEnd(chunks)
      modifies this, pool, dev, ring
      ensures Valid()
      ensures popped == old(popped) && durable == old(durable) && halted == old(halted) && dev.file == old(dev.file)
      ensures old(halted) ==> st == IoError && wrote == 0
      ensures !old(halted) && old(cur) != [] && (force || old(Late(now)) || old(IsFull())) ==>
                (st == Ok <==> wrote > 0)
      ensures !old(halted) && (old(cur) == [] || !(force || old(Late(now)) || old(IsFull()))) ==>
                st == Ok && wrote == 0 && dev.pending == old(dev.pending) && unchanged(pool)
      ensures st == Ok ==> !Late(now) && !IsFull()
      ensures !old(halted) ==> (st == Ok <==> dev.refusals == old(dev.refusals))
      ensures wrote == 0 ==> chunks == old(chunks) && cur == old(cur) && curLen == old(curLen) && curBuf == old(curBuf)
      ensures wrote > 0 ==> cur == [] && curLen == 0
      ensures wrote > 0 ==>
        chunks == old(chunks) + [Chunk(fileOffset, NextFirst(old(chunks)), old(cur), fileOffset + wrote)]
    {
      hide Inv, Deadline;
      Shape(Pipe());
      if halted {
        return IoError, 0;
      }
      if curLen == 0 {
        return Ok, 0;
      }
      if !force && now < curDeadline && curLen < MAX_GROUP_BYTES {
        return Ok, 0;
      }
      FlightBound(Pipe());
      assert ring.count < MAX_INFLIGHT;
      st, wrote := HandOver(fileOffset);
    }

    /** The second half of a submission. The ring has room: its 32 slots outnumber the buffers. */
    method HandOver(fileOffset: nat) returns (st: Err, wrote: nat)
      requires Valid() && fileOffset == DataEnd(chunks) && curLen > 0
      modifies this, pool, dev, ring
      ensures Valid()
      ensures popped == old(popped) && durable == old(durable) && halted == old(halted) && dev.file == old(dev.file)
      ensures st == Ok <==> wrote > 0
      ensures st == Ok <==> dev.refusals == old(dev.refusals)
      ensures wrote == 0 ==> chunks == old(chunks) && cur == old(cur) && curLen == old(curLen) && curBuf == old(curBuf)
      ensures wrote > 0 ==> cur == [] && curLen == 0
      ensures wrote > 0 ==>
        chunks == old(chunks) + [Chunk(fileOffset, NextFirst(old(chunks)), old(cur), fileOffset + wrote)]
    {
      hide Inv, PadToBlock, Splice, Placed, InBuffer, Aligned, InflightRing.Valid;
      ghost var p := Pipe();
      Shape(p);
      FinishCur(p);
      PadKeeps(p);
      FlightBound(p);
      var padded := PadToBlock(curLen, block);
      pool.rows := pool.rows[curBuf := Splice(pool.rows[curBuf], curLen, Zeros(padded - curLen))];
      ghost var q := Pipe();
      assert q == Padded(p);
      st := dev.Submit(WriteRequest(curBuf, fileOffset, curLast, padded));
      if st != Ok {
        assert Pipe() == q;
        return st, 0;
      }
      wrote := padded;
      Launch(padded, Finished(q));
      SubmitKeeps(q, curBuf);
      assert Pipe() == Submitted(q, curBuf);
    }

    /** The group `c` joins the ring, and the first free buffer becomes current. */
    method Launch(padded: nat, ghost c: Chunk)
      requires ring.Valid() && |ring.fifo| < MAX_INFLIGHT && |bufFree| == MAX_BUFFERS && curBuf < MAX_BUFFERS
      modifies this, ring
      ensures ring.Valid() && ring.fifo == old(ring.fifo + [InflightGroup(curLast, curBuf, padded, false, false)])
      ensures bufFree == old(bufFree[curBuf := false]) && chunks == old(chunks) + [c]
      ensures curLen == 0 && cur == [] && curBuf <= MAX_BUFFERS
      ensures if curBuf < MAX_BUFFERS then bufFree[curBuf] else forall b :: 0 <= b < MAX_BUFFERS ==> !bufFree[b]
      ensures popped == old(popped) && durable == old(durable) && halted == old(halted)
    {
      ring.Push(InflightGroup(curLast, curBuf, padded, false, false));
      bufFree := bufFree[curBuf := false];
      curBuf := FirstFree(bufFree);
      curLen, curLast, curDeadline := 0, 0, 0;
      cur, chunks := [], chunks + [c];
    }

    /** Is the oldest group in flight one the device has not finished? */
    ghost predicate Settled()
      reads dev, ring
    {
      ring.fifo == [] || (ring.fifo[0].token in dev.pending && dev.pending[ring.fifo[0].token].Queued?)
    }

    /** Collects completions, then advances durability over the oldest groups, strictly in order, until the oldest
        left is one the device has not finished. */
    method Reap() returns (st: Err)
      requires Valid()
      modifies this, dev, ring
      ensures Valid() && unchanged(pool) && dev.file == old(dev.file)
      ensures chunks == old(chunks) && cur == old(cur) && curLen == old(curLen)
      ensures popped >= old(popped) && durable >= old(durable)
      ensures st == if halted then IoError else Ok
      ensures old(halted) ==> halted
      ensures !halted ==> Settled()
    {
      hide Inv;
      PendingNamed(Pipe());
      FlightBound(Pipe());
      PendingFew(Pipe());
      var out := dev.Collect();
      CollectedFew(out, old(dev.pending));
      Deliver(out, old(dev.pending));
      assert dev.pending == old(dev.pending) - TokensOf(out);
      st := Advance();
      if !halted && ring.fifo != [] {
        OldestOwed(Pipe());
      }
    }

    /** Marks the group each completion names; one that did not write everything halts the log for good. */
    method Deliver(out: seq<Completion>, ghost owed: map<U64, IoState>)
      requires dev.pool == pool && ring.Valid() && Inv(Pipe().(pending := owed))
      requires forall k :: 0 <= k < |ring.fifo| && ring.fifo[k].completed && !ring.fifo[k].ok ==> halted
      requires forall i :: 0 <= i < |out| ==> out[i].token in owed && owed[out[i].token] == Done(out[i])
      requires forall i, j :: 0 <= i < j < |out| ==> out[i].token != out[j].token
      modifies `halted, ring
      ensures ring.Valid() && Inv(Pipe().(pending := owed - TokensOf(out)))
      ensures forall k :: 0 <= k < |ring.fifo| && ring.fifo[k].completed && !ring.fifo[k].ok ==> halted
      ensures old(halted) ==> halted
    {
      hide Inv, InflightRing.Valid;
      ghost var left := owed;
      assert owed - TokensOf([]) == owed;
      var i := 0;
      while i < |out|
        invariant 0 <= i <= |out| && left == owed - TokensOf(out[..i])
        invariant ring.Valid() && Inv(Pipe().(pending := left))
        invariant forall k :: 0 <= k < |ring.fifo| && ring.fifo[k].completed && !ring.fifo[k].ok ==> halted
        invariant forall j :: i <= j < |out| ==> out[j].token in left && left[out[j].token] == Done(out[j])
        invariant old(halted) ==> halted
      {
        ghost var p := Pipe().(pending := left);
        TokensDistinct(p);
        MarkKeeps(p, out[i].token);
        var ok := InFull(out[i]);
        var found := ring.Mark(out[i].token, ok);
        if found && !ok {
          halted := true;
        }
        TokensSnoc(out[..i], out[i]);
        assert out[..i + 1] == out[..i] + [out[i]];
        left := left - {out[i].token};
        i := i + 1;
      }
      assert out[..i] == out;
    }

    /** Retires completed groups from the oldest on, and stops for good at one that failed. */
    method Advance() returns (st: Err)
      requires Valid()
      modifies this, ring
      ensures Valid() && chunks == old(chunks) && cur == old(cur) && curLen == old(curLen)
      ensures popped >= old(popped) && durable >= old(durable)
      ensures st == if halted then IoError else Ok
      ensures halted == old(halted)
      ensures !halted ==> ring.fifo == [] || !ring.fifo[0].completed
    {
      hide Inv;
      while ring.count > 0
        invariant Valid() && chunks == old(chunks) && cur == old(cur) && curLen == old(curLen)
        invariant popped >= old(popped) && durable >= old(durable) && halted == old(halted)
        decreases ring.count
      {
        var g := ring.Oldest();
        if !g.completed {
          break;
        }
        if !g.ok {
          halted := true;
          return IoError;
        }
        Retire(g);
      }
      return if halted then IoError else Ok;
    }

    method Retire(g: InflightGroup)
      requires Valid() && ring.fifo != [] && g == ring.fifo[0] && g.completed && g.ok
      modifies this, ring
      ensures Valid() && ring.fifo == old(ring.fifo)[1..]
      ensures chunks == old(chunks) && cur == old(cur) && curLen == old(curLen) && halted == old(halted)
      ensures popped == old(popped) + 1 && durable == g.token > old(durable)
    {
      hide Inv;
      ghost var p := Pipe();
      PopToken(p);
      durable := g.token;
      PopKeeps(p, if curBuf >= MAX_BUFFERS then g.bufIdx else curBuf);
      bufFree := bufFree[g.bufIdx := true];
      if curBuf >= MAX_BUFFERS {
        curBuf := g.bufIdx;
      }
      ring.Pop();
      popped := popped + 1;
      assert Pipe() == Popped(p, curBuf);
    }
  }

  method FirstFree(free: seq<bool>) returns (b: nat)
    requires |free| == MAX_BUFFERS
    ensures b <= MAX_BUFFERS && (b < MAX_BUFFERS ==> free[b])
    ensures forall i :: 0 <= i < b ==> !free[i]
  {
    b := 0;
    while b < MAX_BUFFERS && !free[b]
      invariant b <= MAX_BUFFERS
      invariant forall i :: 0 <= i < b ==> !free[i]
    {
      b := b + 1;
    }
  }
}
