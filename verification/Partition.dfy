/** The loop of one partition: log, apply, stage; submit; reap; publish what is durable. */
module Partitions {
  import opened Bytes
  import opened Status
  import opened WalFormat
  import opened SegmentReading
  import LogRoundTrip
  import InflightGroups
  import CommitLayout
  import opened CommitInvariant
  import opened GroupCommitting
  import opened WriteAheadLog
  import OutboxLayout
  import opened Outboxes
  import opened Ledgers
  import opened Applying
  import opened EventLog

  const BATCH := 256
  const MAX_OUTPUTS := 4
  const MAX_OUTPUT_BYTES := 256
  const UPDATE_BYTES := 32

  datatype Frame = Frame(arrival: U64, tmpl: U16, payload: seq<Byte>)

  /** Record `i` of the log is frame `i` of the stream. */
  ghost predicate LoggedFrames(logged: seq<Entry>, frames: seq<Frame>) {
    && |logged| <= |frames|
    && forall i :: 0 <= i < |logged| ==>
         && logged[i].record.tmpl == frames[i].tmpl && logged[i].record.payload == frames[i].payload
         && logged[i].record.ts == frames[i].arrival
  }

  /** The ledger is what replaying the events gives, and the outputs staged are what the replay stages. */
  ghost predicate LedgerTold(start: Ledger, es: seq<Event>, ledger: Ledger, reason: Err, history: seq<Output>) {
    && WellFormed(start) && 1 + |es| <= LIMIT
    && Run(start, 1, es) == Ran(ledger, reason) && (reason == Ok || IsFatal(reason))
    && history == OutputsOf(start, 1, es)
  }

  /** What was published was durable. */
  ghost predicate GateKept(history: seq<Output>, published: nat, durable: int) {
    published <= |history| && forall i :: 0 <= i < published ==> history[i].lsn <= durable
  }

  /** Every frame is logged once, in order, or still waiting; `stuck` of the logged ones waits as well. */
  ghost predicate StreamKept(logged: seq<Entry>, stream: seq<Frame>, inbox: seq<Frame>, stuck: nat) {
    stuck <= |logged| && LoggedFrames(logged, stream) && inbox == stream[|logged| - stuck..]
  }

  lemma LedgerStep(start: Ledger, es: seq<Event>, ledger: Ledger, history: seq<Output>, e: Event)
    requires LedgerTold(start, es, ledger, Ok, history) && 2 + |es| <= LIMIT
    ensures WellFormed(ledger)
    ensures var a := Apply(ledger, 1 + |es|, e);
            LedgerTold(start, es + [e], a.d, if IsFatal(a.st) then a.st else Ok, history + OutputsAt(1 + |es|, a.outs))
  {
    hide Run, OutputsOf, WellFormed, Apply;
    RunSnoc(start, 1, es, e);
    OutputsSnoc(start, 1, es, e);
  }

  lemma StreamStep(logged: seq<Entry>, after: seq<Entry>, stream: seq<Frame>, inbox: seq<Frame>, r: Record)
    requires StreamKept(logged, stream, inbox, 0) && inbox != [] && Appended(logged, after, r)
    requires r.tmpl == inbox[0].tmpl && r.payload == inbox[0].payload && r.ts == inbox[0].arrival
    ensures StreamKept(after, stream, inbox[1..], 0) && StreamKept(after, stream, inbox, 1)
  {
    assert inbox[0] == stream[|logged|];
    assert forall i :: 0 <= i < |logged| ==> after[i] == logged[i];
    assert inbox[1..] == stream[|logged| + 1..];
  }

  class Partition {
    const decode: Decoder
    const wal: Wal
    const box: Outbox
    const start: Ledger
    var ledger: Ledger
    /** The frames of the ring not yet consumed. */
    var inbox: seq<Frame>
    var stopped: bool
    var reason: Err
    var published: nat
    /** The bytes of what was published, as they were read when they left. */
    var sent: seq<seq<Byte>>
    /** Every frame that ever arrived. */
    ghost var stream: seq<Frame>

    ghost predicate Valid()
      reads this, box, wal, wal.group, wal.group.pool, wal.group.dev, wal.group.ring
    {
      && wal.Valid() && box.Valid()
      && |wal.Logged()| == wal.lastLsn
      && LedgerTold(start, Events(decode, wal.Logged()), ledger, reason, box.history)
      && (stopped <==> reason != Ok) && (stopped <==> box.frozen)
      && published == box.releasedTotal == |sent| && GateKept(box.history, published, wal.group.durable)
      && StreamKept(wal.Logged(), stream, inbox, if stopped then 1 else 0)
    }

    /** Nothing pending was overwritten, and what was sent is what was staged. */
    ghost predicate Intact()
      reads this, box
    {
      && Safe(box, UPDATE_BYTES)
      && published <= |sent| && published <= |box.history|
      && forall k :: 0 <= k < published ==> sent[k] == box.history[k].bytes
    }

    constructor (decode: Decoder, wal: Wal, box: Outbox, start: Ledger)
      requires wal.Valid() && box.Valid() && WellFormed(start)
      requires wal.Logged() == [] && wal.lastLsn == 0 && box.history == [] && box.releasedTotal == 0 && !box.frozen
      ensures Valid() && this.wal == wal && this.box == box && this.start == start && this.decode == decode
      ensures ledger == start && stream == [] && published == 0
      ensures Safe(box, UPDATE_BYTES) ==> Intact()
    {
      hide Wal.Valid, Outbox.Valid, WellFormed, Safe;
      this.decode, this.wal, this.box, this.start := decode, wal, box, start;
      ledger, inbox, stopped, reason, published := start, [], false, Ok, 0;
      stream, sent := [], [];
    }

    /** The producer hands over one more frame. */
    method Arrive(f: Frame)
      requires Valid()
      modifies `inbox, `stream
      ensures Valid() && stream == old(stream) + [f] && (old(Intact()) ==> Intact())
    {
      hide Safe, LedgerTold, GateKept, Wal.Valid, Outbox.Valid;
      inbox, stream := inbox + [f], stream + [f];
    }

    /** Does the first frame wait for room in the outbox? */
    ghost predicate Crowded()
      requires box.Valid()
      reads this, box
    {
      || box.count + MAX_OUTPUTS > |box.slots| || MAX_OUTPUT_BYTES > |box.buf|
      || MAX_OUTPUT_BYTES > OutboxLayout.FreeRun(box.count, Live(box.places), box.bufHead, |box.buf|)
    }

    /** Is there a frame, and room for it and for what it may stage, everywhere? */
    ghost predicate Takes()
      requires box.Valid()
      reads this, box, wal, wal.group
    {
      && !stopped && inbox != [] && !Crowded()
      && !wal.Halted() && !wal.group.TooLong(|inbox[0].payload|) && !wal.group.NoRoom(|inbox[0].payload|)
    }

    /** Why nothing is drained: no frame, no room in the outbox, a log that halted, a frame no group can hold, or no
        buffer left to gather it in. */
    ghost predicate Waits()
      requires box.Valid()
      reads this, box, wal, wal.group
    {
      || inbox == [] || Crowded() || wal.Halted() || wal.group.TooLong(|inbox[0].payload|)
      || wal.group.curBuf >= CommitLayout.MAX_BUFFERS
    }

    /** The body of the draining loop: one frame, or a reason to stop draining. A frame there is room for is taken;
        one left in its ring has a reason to wait, or the device just refused a group. */
    method DrainOne() returns (applied: bool)
      requires Valid() && !stopped && wal.lastLsn + 1 < LSN_LIMIT
      modifies this, box, wal, wal.group, wal.group.pool, wal.group.dev, wal.group.ring
      ensures Valid() && stream == old(stream) && published == old(published)
      ensures wal.group.durable == old(wal.group.durable) && wal.lastLsn <= old(wal.lastLsn) + 1
      ensures applied ==> !stopped && wal.lastLsn == old(wal.lastLsn) + 1
      ensures if applied then old(inbox) != [] && inbox == old(inbox)[1..] else inbox == old(inbox)
      ensures !applied && !stopped ==> unchanged(`ledger) && wal.lastLsn == old(wal.lastLsn)
      ensures old(Takes()) ==> applied || stopped
      ensures !applied && !stopped ==> Waits() || wal.group.dev.refusals != old(wal.group.dev.refusals)
      ensures applied ==> wal.group.dev.refusals == old(wal.group.dev.refusals)
      ensures old(Intact()) ==> Intact()
    {
      hide Safe, LedgerTold, StreamKept, Wal.Valid, Outbox.Valid, Apply, IsFatal, OutboxLayout.FreeRun;
      hide RecordBytes, WellFormed;
      if inbox == [] {
        return false;
      }
      var f := inbox[0];
      var room := box.HasRoom(MAX_OUTPUTS, MAX_OUTPUT_BYTES);
      if !room {
        return false;
      }
      ghost var before := wal.Logged();
      var st, lsn := wal.Append(f.tmpl, f.payload, f.arrival);
      if st != Ok {
        return false;
      }
      applied := Absorb(f, lsn, before);
    }

    /** The frame just logged reaches the ledger, and its updates the outbox, in the room reserved for them. */
    method Absorb(f: Frame, lsn: U64, ghost before: seq<Entry>) returns (applied: bool)
      requires wal.Valid() && box.Valid() && |wal.Logged()| == wal.lastLsn == lsn && inbox != [] && f == inbox[0]
      requires Appended(before, wal.Logged(), Record(lsn, f.arrival, wal.group.epoch, f.tmpl, f.payload))
      requires LedgerTold(start, Events(decode, before), ledger, Ok, box.history)
               && StreamKept(before, stream, inbox, 0)
      requires !stopped && !box.frozen && reason == Ok && published == box.releasedTotal == |sent|
      requires GateKept(box.history, published, wal.group.durable)
      requires box.count + MAX_OUTPUTS <= |box.slots|
      requires MAX_OUTPUT_BYTES <= OutboxLayout.FreeRun(box.count, Live(box.places), box.bufHead, |box.buf|)
      modifies `ledger, `stopped, `reason, `inbox, box
      ensures Valid() && applied == !stopped && (old(Intact()) ==> Intact())
      ensures inbox == if applied then old(inbox)[1..] else old(inbox)
    {
      hide Sound, Roomy, AllShort, LedgerTold, StreamKept, Wal.Valid, Outbox.Valid, Apply, IsFatal;
      hide OutboxLayout.FreeRun, WellFormed, Appended;
      ghost var record := Record(lsn, f.arrival, wal.group.epoch, f.tmpl, f.payload);
      EventsSnoc(decode, before, wal.Logged(), record);
      StreamStep(before, wal.Logged(), stream, inbox, record);
      var e := decode(f.tmpl, f.payload);
      LedgerStep(start, Events(decode, before), ledger, box.history, e);
      var a := Apply(ledger, lsn, e);
      Reserved(lsn, a.outs);
      StageAll(box, OutputsAt(lsn, a.outs), UPDATE_BYTES);
      ledger := a.d;
      applied := !IsFatal(a.st);
      if applied {
        inbox := inbox[1..];
      } else {
        stopped, reason := true, a.st;
        NotOk(a.st);
        box.Freeze();
      }
    }

    /** Moves the durable prefix of the outbox out: the only way anything leaves. */
    method Publish()
      requires Valid()
      modifies `published, `sent, box
      ensures Valid() && box.history == old(box.history) && published >= old(published)
      ensures stopped ==> published == old(published)
      ensures !stopped && published < |box.history| ==> box.history[published].lsn > wal.group.durable
      ensures old(Intact()) ==> Intact()
    {
      hide Safe, LedgerTold, StreamKept, Wal.Valid, Outbox.Valid, WellFormed;
      DurableIsNumber();
      Plain(box);
      var n := box.Ready(wal.group.durable);
      if n == 0 {
        return;
      }
      var out := Release(box, n, UPDATE_BYTES);
      published, sent := published + n, sent + out;
      Plain(box);
    }

    lemma DurableIsNumber()
      requires wal.Valid()
      ensures 0 <= wal.group.durable
    {
      hide Inv, InflightGroups.InflightRing.Valid;
    }

    /** The draining loop: frames from the front, up to a batch, until one has to wait or stops the partition. */
    method Drain() returns (applied: nat)
      requires Valid() && !stopped && wal.lastLsn + BATCH + 1 < LSN_LIMIT
      modifies this, box, wal, wal.group, wal.group.pool, wal.group.dev, wal.group.ring
      ensures Valid() && stream == old(stream) && published == old(published) && applied <= BATCH
      ensures wal.lastLsn <= old(wal.lastLsn) + BATCH + 1 && wal.group.durable == old(wal.group.durable)
      ensures applied <= |old(inbox)| && inbox == old(inbox)[applied..]
      ensures old(Takes()) ==> applied > 0 || stopped
      ensures !stopped && applied < BATCH ==> Waits() || wal.group.dev.refusals != old(wal.group.dev.refusals)
      ensures old(Intact()) ==> Intact()
    {
      hide Safe, LedgerTold, StreamKept, GateKept, Wal.Valid, Outbox.Valid, WellFormed, Partition.Takes;
      hide Partition.Waits;
      applied := 0;
      var more := true;
      while applied < BATCH && more
        invariant Valid() && stream == old(stream) && published == old(published)
        invariant applied <= BATCH && wal.lastLsn <= old(wal.lastLsn) + applied + if more then 0 else 1
        invariant wal.group.durable == old(wal.group.durable) && (old(Intact()) ==> Intact())
        invariant stopped ==> !more
        invariant applied <= |old(inbox)| && inbox == old(inbox)[applied..]
        invariant old(Takes()) ==> applied > 0 || stopped || (more && Takes())
        invariant more ==> wal.group.dev.refusals == old(wal.group.dev.refusals)
        invariant !more && !stopped ==> Waits() || wal.group.dev.refusals != old(wal.group.dev.refusals)
        decreases BATCH - applied, more
      {
        more := DrainOne();
        if more {
          assert old(inbox)[applied..][1..] == old(inbox)[applied + 1..];
          applied := applied + 1;
        }
      }
    }

    /** One turn of the loop. A frame there is room for is taken; unless the log halted, no group is left that is late
        or full, and none that the device finished is left unretired; unless the partition stopped, nothing durable
        is left unpublished. */
    method Poll(now: U64) returns (applied: nat)
      requires Valid() && wal.lastLsn + BATCH + 1 < LSN_LIMIT
      modifies this, box, wal, wal.group, wal.group.pool, wal.group.dev, wal.group.ring
      ensures Valid() && stream == old(stream) && wal.lastLsn <= old(wal.lastLsn) + BATCH + 1
      ensures wal.group.durable >= old(wal.group.durable) && published >= old(published)
      ensures applied <= |old(inbox)| && inbox == old(inbox)[applied..]
      ensures old(Takes()) ==> applied > 0 || stopped
      ensures !wal.Halted() ==> !wal.group.Late(now) && !wal.group.IsFull() && wal.group.Settled()
      ensures old(stopped) ==> stopped && unchanged(`ledger) && published == old(published)
      ensures stopped ==> published == old(published)
      ensures !stopped && published < |box.history| ==> box.history[published].lsn > wal.group.durable
      ensures old(Intact()) ==> Intact()
    {
      hide Safe, LedgerTold, StreamKept, GateKept, Wal.Valid, Outbox.Valid, WellFormed;
      hide GroupCommit.Late, GroupCommit.IsFull, GroupCommit.Settled, Partition.Takes;
      applied := 0;
      if !stopped {
        applied := Drain();
      }
      Settle(now);
      Publish();
    }

    /** Submits the group that is due and collects what the device finished. */
    method Settle(now: U64)
      requires Valid()
      modifies wal, wal.group, wal.group.pool, wal.group.dev, wal.group.ring
      ensures Valid() && wal.lastLsn == old(wal.lastLsn)
      ensures wal.group.durable >= old(wal.group.durable) && (old(Intact()) ==> Intact())
      ensures !wal.Halted() ==> !wal.group.Late(now) && !wal.group.IsFull() && wal.group.Settled()
    {
      hide Safe, LedgerTold, StreamKept, Wal.Valid, Outbox.Valid, WellFormed, GroupCommit.Settled;
      var _ := wal.MaybeSubmit(now);
      var _ := wal.Reap();
    }
  }

  lemma NotOk(e: Err)
    requires IsFatal(e)
    ensures e != Ok
  {
  }

  /** What one event stages fits the reservation made for it. */
  lemma Reserved(lsn: U64, us: seq<PositionUpdate>)
    requires |us| <= 1
    ensures |OutputsAt(lsn, us)| <= MAX_OUTPUTS && OutboxLayout.Total(Lengths(OutputsAt(lsn, us))) <= MAX_OUTPUT_BYTES
    ensures AllShort(OutputsAt(lsn, us), UPDATE_BYTES)
  {
    var outs := OutputsAt(lsn, us);
    if outs != [] {
      LengthsStep(outs);
      assert outs[1..] == [];
    }
  }

  lemma EventsSnoc(decode: Decoder, before: seq<Entry>, after: seq<Entry>, r: Record)
    requires Appended(before, after, r)
    ensures Events(decode, after) == Events(decode, before) + [decode(r.tmpl, r.payload)]
  {
    assert forall i :: 0 <= i < |before| ==> after[i] == before[i];
  }

  // ---------------------------------------------------------------- crash

  /** Outputs published up to durable LSN `n` come from the first `n` events. */
  lemma PublishedFromDurable(start: Ledger, es: seq<Event>, published: nat, n: nat)
    requires WellFormed(start) && 1 + |es| <= LIMIT && n <= |es|
    requires GateKept(OutputsOf(start, 1, es), published, n)
    ensures OutputsOf(start, 1, es)[..published] <= OutputsOf(start, 1, es[..n])
  {
    hide OutputsOf, WellFormed;
    OutputsPrefix(start, 1, es, n);
    var first, all := OutputsOf(start, 1, es[..n]), OutputsOf(start, 1, es);
    assert |first| < |all| ==> all[|first|].lsn >= 1 + n;
    if |first| < published {
      assert false;
    }
  }

  /** Of the records read back, the first `n` are the first `n` logged, and replaying them stages, in order, all
      that was released; what is staged tells the positions the replay passes through. */
  ghost predicate Survives(got: seq<Entry>, logged: seq<Entry>, n: int, start: Ledger, decode: Decoder,
                           released: seq<Output>) {
    && 0 <= n <= |got| && n <= |logged| && got[..n] == logged[..n]
    && WellFormed(start) && 1 + n <= LIMIT
    && var es := Events(decode, got[..n]);
    released <= OutputsOf(start, 1, es) && OutputsTold(start, 1, es, OutputsOf(start, 1, es))
  }

  function PayloadsOf(outs: seq<Output>): (r: seq<seq<Byte>>)
    ensures |r| == |outs| && forall k :: 0 <= k < |outs| ==> r[k] == outs[k].bytes
  {
    seq(|outs|, k requires 0 <= k < |outs| => outs[k].bytes)
  }

  /** Stop the process at any moment, whatever the device made of unfinished writes: the segment opens, its first
      records are every durable event in order, and replaying just those stages, in order, everything that was
      ever published. */
  lemma PublishedSurvives(p: Partition)
    requires p.Valid()
    ensures OpenSegment(p.wal.group.cs, p.wal.group.dev.file, 1) == Opened(p.wal.group.epoch, 1, p.wal.group.block)
    ensures p.published <= |p.box.history|
    ensures var got := LogRoundTrip.ReadSegment(Seg(p.wal.group.Pipe())).entries;
            Survives(got, p.wal.Logged(), p.wal.group.durable, p.start, p.decode, p.box.history[..p.published])
    ensures p.Intact() ==> p.sent == PayloadsOf(p.box.history[..p.published])
  {
    hide OutputsOf, OutputsTold, Run, WellFormed, Outbox.Valid, StreamKept, Wal.Valid, LogRoundTrip.ReadSegment;
    hide OpenSegment, Safe;
    DurableRecovered(p.wal);
    var got := LogRoundTrip.ReadSegment(Seg(p.wal.group.Pipe())).entries;
    var n := p.wal.group.durable;
    var es := Events(p.decode, p.wal.Logged());
    assert got[..n] == p.wal.Logged()[..n];
    assert Events(p.decode, got[..n]) == es[..n];
    OutputsAreTold(p.start, 1, es[..n]);
    PublishedFromDurable(p.start, es, p.published, n);
  }

  /** A partition that stopped publishes nothing more, ever, and its ledger no longer moves. */
  method StoppedStays(p: Partition, times: seq<U64>)
    requires p.Valid() && p.stopped && p.wal.lastLsn + |times| * (BATCH + 1) + BATCH + 1 < LSN_LIMIT
    modifies p, p.box, p.wal, p.wal.group, p.wal.group.pool, p.wal.group.dev, p.wal.group.ring
    ensures p.Valid() && p.stopped && p.published == old(p.published) && p.ledger == old(p.ledger)
  {
    hide LedgerTold, StreamKept, GateKept, Wal.Valid, Outbox.Valid, WellFormed;
    var i := 0;
    while i < |times|
      invariant 0 <= i <= |times| && p.Valid() && p.stopped
      invariant p.published == old(p.published) && p.ledger == old(p.ledger)
      invariant p.wal.lastLsn + (|times| - i) * (BATCH + 1) + BATCH + 1 < LSN_LIMIT
    {
      var _ := p.Poll(times[i]);
      i := i + 1;
    }
  }

  // ---------------------------------------------------------------- whole runs

  datatype Move =
    | Arrives(f: Frame)
    | Polls(now: U64)
    | Scribbles(token: U64, bytes: seq<Byte>)
    | Completes(token: U64, res: int)

  /** Any interleaving of arriving frames, turns of the loop and device behaviour. Durability and publication only
      advance; at the end, as at every moment before it, the ledger is the replay of the log, every frame is in the
      log or still waiting, and whatever was published is recovered. */
  method Drive(p: Partition, moves: seq<Move>)
    requires p.Valid() && p.wal.lastLsn + |moves| * (BATCH + 1) + BATCH + 1 < LSN_LIMIT
    modifies p, p.box, p.wal, p.wal.group, p.wal.group.pool, p.wal.group.dev, p.wal.group.ring
    ensures p.Valid() && p.published >= old(p.published) && p.wal.group.durable >= old(p.wal.group.durable)
    ensures LedgerTold(p.start, Events(p.decode, p.wal.Logged()), p.ledger, p.reason, p.box.history)
    ensures StreamKept(p.wal.Logged(), p.stream, p.inbox, if p.stopped then 1 else 0)
    ensures GateKept(p.box.history, p.published, p.wal.group.durable) && (old(p.Intact()) ==> p.Intact())
    ensures OutputsTold(p.start, 1, Events(p.decode, p.wal.Logged()), p.box.history)
  {
    hide Safe, LedgerTold, StreamKept, GateKept, Wal.Valid, Outbox.Valid, WellFormed, OutputsTold;
    var i := 0;
    while i < |moves|
      invariant 0 <= i <= |moves| && p.Valid() && (old(p.Intact()) ==> p.Intact())
      invariant p.published >= old(p.published) && p.wal.group.durable >= old(p.wal.group.durable)
      invariant p.wal.lastLsn + (|moves| - i) * (BATCH + 1) + BATCH + 1 < LSN_LIMIT
    {
      match moves[i] {
        case Arrives(f) => p.Arrive(f);
        case Polls(now) => var _ := p.Poll(now);
        case Scribbles(token, bytes) => DeviceMoves(p, DevScribble(token, bytes));
        case Completes(token, res) => DeviceMoves(p, DevComplete(token, res));
      }
      i := i + 1;
    }
    HistoryTold(p.start, Events(p.decode, p.wal.Logged()), p.ledger, p.reason, p.box.history);
  }

  lemma HistoryTold(start: Ledger, es: seq<Event>, ledger: Ledger, reason: Err, history: seq<Output>)
    requires LedgerTold(start, es, ledger, reason, history)
    ensures WellFormed(start) && OutputsTold(start, 1, es, history)
  {
    hide WellFormed, Run, OutputsOf, OutputsTold;
    OutputsAreTold(start, 1, es);
  }

  /** What the device does is invisible to the partition until it is reaped. */
  method DeviceMoves(p: Partition, s: Step)
    requires p.Valid() && (s.DevScribble? || s.DevComplete?)
    modifies p.wal.group.dev
    ensures p.Valid() && (old(p.Intact()) ==> p.Intact())
  {
    hide Safe, LedgerTold, StreamKept, GateKept, Wal.Valid, Outbox.Valid, WellFormed;
    var dev := p.wal.group.dev;
    match s
    case DevScribble(token, bytes) =>
      if token in dev.pending && dev.pending[token].Queued? && |bytes| <= dev.pending[token].req.len {
        DeviceScribbles(p.wal, token, bytes);
      }
    case DevComplete(token, res) =>
      if token in dev.pending && dev.pending[token].Queued? {
        DeviceCompletes(p.wal, token, res);
      }
    case _ =>
  }
}
