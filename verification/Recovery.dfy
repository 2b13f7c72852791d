/** Recovery: the newest usable image, then the log after it. */
module Recovering {
  import opened Bytes
  import opened Status
  import opened WalFormat
  import opened SegmentReading
  import LogRoundTrip
  import opened Ledgers
  import opened Applying
  import opened EventLog
  import opened StateImages
  import opened ImageFiles
  import opened CommitInvariant
  import Partitions
  import WriteAheadLog

  /** Entries up to the image's LSN are skipped, the others applied until one is fatal. */
  function ReplayEntries(d: Ledger, imageLsn: nat, es: seq<Entry>, decode: Decoder): (r: Ran)
    requires WellFormed(d)
    ensures WellFormed(r.d)
    decreases |es|
  {
    if es == [] then Ran(d, Ok)
    else if es[0].record.lsn <= imageLsn then ReplayEntries(d, imageLsn, es[1..], decode)
    else
      var a := Apply(d, es[0].record.lsn, decode(es[0].record.tmpl, es[0].record.payload));
      if IsFatal(a.st) then Ran(a.d, a.st) else ReplayEntries(a.d, imageLsn, es[1..], decode)
  }

  /** Numbered `first`, `first + 1`, and so on. */
  ghost predicate Consecutive(es: seq<Entry>, first: nat) {
    forall i :: 0 <= i < |es| ==> es[i].record.lsn == first + i
  }

  // ---------------------------------------------------------------- replay is a run

  lemma {:induction false} RunSplit(d: Ledger, lsn: nat, a: seq<Event>, b: seq<Event>)
    requires WellFormed(d) && !IsFatal(Run(d, lsn, a).st)
    ensures Run(d, lsn, a + b) == Run(Run(d, lsn, a).d, lsn + |a|, b)
    decreases |a|
  {
    hide WellFormed, Apply, IsFatal;
    if a == [] {
      assert a + b == b;
    } else {
      assert (a + b)[0] == a[0] && (a + b)[1..] == a[1..] + b;
      RunSplit(Apply(d, lsn, a[0]).d, lsn + 1, a[1..], b);
    }
  }

  lemma {:induction false} RunLsn(d: Ledger, lsn: nat, es: seq<Event>)
    requires WellFormed(d) && !IsFatal(Run(d, lsn, es).st) && d.appliedLsn + 1 == lsn
    ensures Run(d, lsn, es).d.appliedLsn + 1 == lsn + |es|
    decreases |es|
  {
    hide WellFormed, IsFatal, Apply;
    if es != [] {
      RunLsn(Apply(d, lsn, es[0]).d, lsn + 1, es[1..]);
    }
  }

  lemma {:induction false} ReplayRuns(d: Ledger, imageLsn: nat, es: seq<Entry>, decode: Decoder, first: nat)
    requires WellFormed(d) && Consecutive(es, first) && imageLsn < first
    ensures ReplayEntries(d, imageLsn, es, decode) == Run(d, first, Events(decode, es))
    decreases |es|
  {
    hide WellFormed, Apply, IsFatal;
    if es != [] {
      assert es[0].record.lsn == first;
      assert forall i :: 0 <= i < |es| - 1 ==> es[1..][i] == es[i + 1];
      assert Events(decode, es)[1..] == Events(decode, es[1..]);
      var a := Apply(d, first, Events(decode, es)[0]);
      if !IsFatal(a.st) {
        ReplayRuns(a.d, imageLsn, es[1..], decode, first + 1);
      }
    }
  }

  lemma {:induction false} ReplaySkips(d: Ledger, imageLsn: nat, es: seq<Entry>, decode: Decoder, first: nat, k: nat)
    requires WellFormed(d) && Consecutive(es, first) && k <= |es| && first + k <= imageLsn + 1
    ensures ReplayEntries(d, imageLsn, es, decode) == ReplayEntries(d, imageLsn, es[k..], decode)
    decreases k
  {
    hide WellFormed, Apply, IsFatal;
    if k == 0 {
      assert es[0..] == es;
    } else {
      assert es[0].record.lsn == first;
      assert forall i :: 0 <= i < |es| - 1 ==> es[1..][i] == es[i + 1];
      assert es[1..][k - 1..] == es[k..];
      ReplaySkips(d, imageLsn, es[1..], decode, first + 1, k - 1);
    }
  }

  lemma EventsSplit(decode: Decoder, es: seq<Entry>, k: nat)
    requires k <= |es|
    ensures Events(decode, es) == Events(decode, es[..k]) + Events(decode, es[k..])
    ensures |Events(decode, es[..k])| == k
  {
  }

  lemma StillConsecutive(es: seq<Entry>, first: nat, k: nat)
    requires Consecutive(es, first) && k <= |es|
    ensures Consecutive(es[k..], first + k)
  {
  }

  /** The ledger and status after the events of a log. */
  function After(start: Ledger, decode: Decoder, es: seq<Entry>): (r: Ran)
    requires WellFormed(start)
    ensures WellFormed(r.d)
  {
    Run(start, 1, Events(decode, es))
  }

  /** These bytes are an image of the ledger after the events of a log, with these links of its lists. */
  ghost predicate SnapshotOf(start: Ledger, decode: Decoder, es: seq<Entry>, first: seq<nat>, next: seq<nat>,
                             cs: Checksum, m: seq<Byte>, f: File)
    requires WellFormed(start)
  {
    var r := After(start, decode, es);
    && !IsFatal(r.st) && |first| == |r.d.accounts| && |next| == |r.d.trades|
    && FileOfState(cs, m, f, Whole(r.d, first, next))
  }

  ghost predicate LoadsAs(cs: Checksum, m: seq<Byte>, d: Ledger, first: seq<nat>, next: seq<nat>) {
    LoadFile(cs, m) == Loaded(Whole(d, first, next))
  }

  /** Such an image loads as that ledger. */
  lemma SnapshotLoads(start: Ledger, decode: Decoder, es: seq<Entry>, first: seq<nat>, next: seq<nat>, cs: Checksum,
                      m: seq<Byte>, f: File)
    requires WellFormed(start) && SnapshotOf(start, decode, es, first, next, cs, m, f)
    ensures LoadsAs(cs, m, After(start, decode, es).d, first, next)
  {
    hide WellFormed, FileOfState, LoadFile, After;
    FileLoadsBack(cs, m, f, Whole(After(start, decode, es).d, first, next));
  }

  /** Snapshot equivalence: take an image after any `k` events, load it into a fresh state and replay the whole log;
      the outcome, ledger and status, is that of applying every event directly. */
  lemma SnapshotEquivalence(start: Ledger, decode: Decoder, es: seq<Entry>, k: nat, first: seq<nat>, next: seq<nat>,
                            cs: Checksum, m: seq<Byte>, f: File)
    requires WellFormed(start) && start.appliedLsn == 0 && Consecutive(es, 1) && k <= |es|
    requires SnapshotOf(start, decode, es[..k], first, next, cs, m, f)
    ensures var d := After(start, decode, es[..k]).d;
            && LoadsAs(cs, m, d, first, next)
            && ReplayEntries(d, d.appliedLsn, es, decode) == After(start, decode, es)
  {
    hide WellFormed, Run, ReplayEntries, FileOfState, LoadsAs, IsFatal, Consecutive, Events;
    var before, after := Events(decode, es[..k]), Events(decode, es[k..]);
    EventsSplit(decode, es, k);
    var d := Run(start, 1, before).d;
    SnapshotLoads(start, decode, es[..k], first, next, cs, m, f);
    RunLsn(start, 1, before);
    ReplaySkips(d, k, es, decode, 1, k);
    StillConsecutive(es, 1, k);
    ReplayRuns(d, k, es[k..], decode, k + 1);
    RunSplit(start, 1, before, after);
  }

  /** What the reader hands to recovery is numbered from 1, whatever the device left after the durable groups. */
  lemma ReadIsConsecutive(g: Segment)
    requires 1 + |g.bytes| <= LIMIT
    ensures Consecutive(LogRoundTrip.ReadSegment(g).entries, 1)
  {
    hide ReadAll;
    forall i | 0 <= i < |LogRoundTrip.ReadSegment(g).entries|
      ensures LogRoundTrip.ReadSegment(g).entries[i].record.lsn == 1 + i
    {
      ArbitraryBytes(g, 1, SEGMENT_HDR_BYTES, i);
    }
  }

  /** What recovery reads of the log that the image does not have. */
  function Newer(got: seq<Entry>, k: nat): seq<Entry> {
    if k <= |got| then got[k..] else []
  }

  /** Replaying a log over the image of the first `k` events of another that is numbered alike: what is newer follows
      what the image holds. */
  lemma ReplayOver(start: Ledger, decode: Decoder, logged: seq<Entry>, got: seq<Entry>, k: nat)
    requires WellFormed(start) && start.appliedLsn == 0 && Consecutive(got, 1) && k <= |logged|
    requires !IsFatal(Run(start, 1, Events(decode, logged[..k])).st)
    ensures var d := Run(start, 1, Events(decode, logged[..k])).d;
            && d.appliedLsn == k
            && ReplayEntries(d, k, got, decode)
               == Run(start, 1, Events(decode, logged[..k]) + Events(decode, Newer(got, k)))
    ensures k >= |got| ==> ReplayEntries(Run(start, 1, Events(decode, logged[..k])).d, k, got, decode)
                           == Ran(Run(start, 1, Events(decode, logged[..k])).d, Ok)
  {
    hide WellFormed, Run, IsFatal, ReplayEntries, Consecutive;
    var before := Events(decode, logged[..k]);
    var d := Run(start, 1, before).d;
    RunLsn(start, 1, before);
    RunSplit(start, 1, before, Events(decode, Newer(got, k)));
    ReplayNewer(d, decode, got, k);
    if k >= |got| {
      assert Events(decode, Newer(got, k)) == [];
      RunNothing(d, k + 1);
    }
  }

  lemma ReplayNewer(d: Ledger, decode: Decoder, got: seq<Entry>, k: nat)
    requires WellFormed(d) && Consecutive(got, 1)
    ensures ReplayEntries(d, k, got, decode) == Run(d, k + 1, Events(decode, Newer(got, k)))
  {
    hide WellFormed, Run, ReplayEntries;
    var more := Newer(got, k);
    if k <= |got| {
      ReplaySkips(d, k, got, decode, 1, k);
      ReplayRuns(d, k, more, decode, k + 1);
    } else {
      ReplaySkips(d, k, got, decode, 1, |got|);
      assert got[|got|..] == more;
      ReplayRuns(d, k, more, decode, k + 1);
    }
  }

  lemma RunNothing(d: Ledger, lsn: nat)
    requires WellFormed(d)
    ensures Run(d, lsn, []) == Ran(d, Ok)
  {
  }

  /** What recovery from an image of the first `k` of the logged events comes to, when `got` is read back and the first
      `durable` of it were logged. */
  ghost predicate RecoversTo(start: Ledger, decode: Decoder, logged: seq<Entry>, got: seq<Entry>, durable: nat, k: nat)
    requires WellFormed(start) && k <= |logged|
  {
    var d := After(start, decode, logged[..k]).d;
    var after := ReplayEntries(d, k, got, decode);
    && d.appliedLsn == k
    && after == Run(start, 1, Events(decode, logged[..k]) + Events(decode, Newer(got, k)))
    && (k <= durable ==> after == After(start, decode, got))
    && (k >= |got| ==> after == Ran(d, Ok))
  }

  lemma RecoversSo(start: Ledger, decode: Decoder, logged: seq<Entry>, got: seq<Entry>, durable: nat, k: nat)
    requires WellFormed(start) && start.appliedLsn == 0 && Consecutive(got, 1) && k <= |logged|
    requires !IsFatal(After(start, decode, logged[..k]).st)
    requires durable <= |got| && durable <= |logged| && got[..durable] == logged[..durable]
    ensures RecoversTo(start, decode, logged, got, durable, k)
  {
    hide WellFormed, Run, ReplayEntries, IsFatal, Newer, Consecutive;
    ReplayOver(start, decode, logged, got, k);
    if k <= durable {
      DurableAgrees(decode, logged, got, durable, k);
    }
  }

  /** Crash at any moment, and recover from an image of the live ledger taken after any `k` events, durable or not
      (`SnapshotLoads` says that it loads as that ledger). The outcome is that of those `k` events and of every newer
      one read back. If the events of the image were durable when the process stopped, that is the outcome of the log
      read back; if the image is ahead of all that can be read, it is the image and nothing else. Either way what had
      been published is among the outputs of the durable events, which come first. */
  lemma CrashRecovery(p: Partitions.Partition, k: nat)
    requires p.Valid() && 1 + |p.wal.group.dev.file| <= LIMIT && WellFormed(p.start) && p.start.appliedLsn == 0
    requires k <= |p.wal.Logged()| && !IsFatal(After(p.start, p.decode, p.wal.Logged()[..k]).st)
    ensures 0 <= p.wal.group.durable && p.published <= |p.box.history|
    ensures var got := LogRoundTrip.ReadSegment(Seg(p.wal.group.Pipe())).entries;
            && RecoversTo(p.start, p.decode, p.wal.Logged(), got, p.wal.group.durable, k)
            && Partitions.Survives(got, p.wal.Logged(), p.wal.group.durable, p.start, p.decode,
                                   p.box.history[..p.published])
  {
    hide WellFormed, LogRoundTrip.ReadSegment, After, IsFatal, Partitions.Partition.Valid, Consecutive, RecoversTo;
    Partitions.PublishedSurvives(p);
    ReadIsConsecutive(Seg(p.wal.group.Pipe()));
    RecoversSo(p.start, p.decode, p.wal.Logged(), LogRoundTrip.ReadSegment(Seg(p.wal.group.Pipe())).entries,
        p.wal.group.durable, k);
  }

  lemma DurableAgrees(decode: Decoder, logged: seq<Entry>, got: seq<Entry>, n: nat, k: nat)
    requires k <= n <= |got| && n <= |logged| && got[..n] == logged[..n]
    ensures Events(decode, logged[..k]) + Events(decode, Newer(got, k)) == Events(decode, got)
  {
    assert logged[..k] == logged[..n][..k] == got[..n][..k] == got[..k];
  }

  // ---------------------------------------------------------------- the recovery loop

  /** Where a writer would go on. */
  datatype Tail = NoTail | Tail(first: U64, epoch: U32, resume: nat, nextLsn: nat)

  datatype Report = Report(ran: Ran, imageLsn: nat, lastValid: nat, applied: nat, rejected: nat, stop: StopReason,
                           fatalLsn: nat, tail: Tail)

  datatype Tally = Tally(read: nat, applied: nat, rejected: nat)

  /** How many records are read, the fatal one included, and how many of them applied and rejected. */
  function Count(d: Ledger, imageLsn: nat, es: seq<Entry>, decode: Decoder): (t: Tally)
    requires WellFormed(d)
    ensures t.read <= |es|
    decreases |es|
  {
    if es == [] then Tally(0, 0, 0)
    else if es[0].record.lsn <= imageLsn then
      var t := Count(d, imageLsn, es[1..], decode);
      t.(read := t.read + 1)
    else
      var a := Apply(d, es[0].record.lsn, decode(es[0].record.tmpl, es[0].record.payload));
      if IsFatal(a.st) then Tally(1, 0, 0)
      else
        var t := Count(a.d, imageLsn, es[1..], decode);
        Tally(t.read + 1, t.applied + (if a.st == Ok then 1 else 0), t.rejected + (if a.st == Ok then 0 else 1))
  }

  /** A fatal record is the last one read. */
  lemma {:induction false} FatalIsLast(d: Ledger, imageLsn: nat, es: seq<Entry>, decode: Decoder)
    requires WellFormed(d)
    ensures IsFatal(ReplayEntries(d, imageLsn, es, decode).st) ==> Count(d, imageLsn, es, decode).read > 0
    ensures !IsFatal(ReplayEntries(d, imageLsn, es, decode).st) ==> Count(d, imageLsn, es, decode).read == |es|
    decreases |es|
  {
    hide WellFormed, Apply;
    if es != [] {
      if es[0].record.lsn <= imageLsn {
        FatalIsLast(d, imageLsn, es[1..], decode);
      } else {
        var a := Apply(d, es[0].record.lsn, decode(es[0].record.tmpl, es[0].record.payload));
        if !IsFatal(a.st) {
          FatalIsLast(a.d, imageLsn, es[1..], decode);
        }
      }
    }
  }

  /** The first image that loads, or the empty state. */
  function Starting(cs: Checksum, files: seq<seq<Byte>>, cap: Capacity): Ledger {
    if files == [] then NewLedger(cap)
    else match LoadFile(cs, files[0])
      case Loaded(w) => w.d
      case Failed(_) => Starting(cs, files[1..], cap)
  }

  /** Recovery starts from the newest image that loads, and from nothing only when none does. */
  lemma {:induction false} StartsFromNewest(cs: Checksum, files: seq<seq<Byte>>, cap: Capacity) returns (i: nat)
    ensures i <= |files| && forall j :: 0 <= j < i ==> LoadFile(cs, files[j]).Failed?
    ensures i == |files| ==> Starting(cs, files, cap) == NewLedger(cap)
    ensures i < |files| ==> LoadFile(cs, files[i]).Loaded? && Starting(cs, files, cap) == LoadFile(cs, files[i]).w.d
  {
    hide LoadFile;
    i := 0;
    if files != [] && LoadFile(cs, files[0]).Failed? {
      i := StartsFromNewest(cs, files[1..], cap);
      i := i + 1;
    }
  }

  /** Every record past the image is applied and answers Ok, or every one is refused. */
  ghost predicate AllAnswer(d: Ledger, imageLsn: nat, es: seq<Entry>, decode: Decoder, ok: bool)
    requires WellFormed(d)
    decreases |es|
  {
    es != [] ==>
      if es[0].record.lsn <= imageLsn then AllAnswer(d, imageLsn, es[1..], decode, ok)
      else
        var a := Apply(d, es[0].record.lsn, decode(es[0].record.tmpl, es[0].record.payload));
        !IsFatal(a.st) && (a.st == Ok <==> ok) && AllAnswer(a.d, imageLsn, es[1..], decode, ok)
  }

  /** What is counted as applied answered Ok, and what is counted as rejected did not. */
  lemma {:induction false} CountedApart(d: Ledger, imageLsn: nat, es: seq<Entry>, decode: Decoder, ok: bool)
    requires WellFormed(d) && AllAnswer(d, imageLsn, es, decode, ok)
    ensures var t := Count(d, imageLsn, es, decode);
            t.read == |es| && (if ok then t.rejected else t.applied) == 0
    decreases |es|
  {
    hide WellFormed, Apply, IsFatal;
    if es != [] {
      if es[0].record.lsn <= imageLsn {
        CountedApart(d, imageLsn, es[1..], decode, ok);
      } else {
        var a := Apply(d, es[0].record.lsn, decode(es[0].record.tmpl, es[0].record.payload));
        CountedApart(a.d, imageLsn, es[1..], decode, ok);
      }
    }
  }

  function Max(a: nat, b: nat): nat {
    if a < b then b else a
  }

  /** The LSN of the last of `n` records read, and where the next would go. */
  function LastRead(es: seq<Entry>, n: nat, first: U64): nat
    requires n <= |es|
  {
    if n > 0 then es[n - 1].record.lsn else if first > 1 then first - 1 else 0
  }

  function ResumeAt(es: seq<Entry>, n: nat, block: Block): nat
    requires n <= |es|
  {
    if n > 0 then PadToBlock(End(es[n - 1]), block) else SEGMENT_HDR_BYTES
  }

  /** The whole report, from the state recovery starts from and what the segment holds. */
  function Reported(start: Ledger, cs: Checksum, m: seq<Byte>, decode: Decoder): Report
    requires WellFormed(start)
  {
    var imageLsn := start.appliedLsn;
    match OpenSegment(cs, m, if imageLsn + 1 < LIMIT then imageLsn + 1 else 0)
    case Refused(why) => Report(Ran(start, Ok), imageLsn, imageLsn, 0, 0, why, 0, NoTail)
    case Opened(epoch, first, block) =>
      var read := ReadAll(Segment(cs, m, epoch, block), SEGMENT_HDR_BYTES, first, SEGMENT_HDR_BYTES);
      var ran := ReplayEntries(start, imageLsn, read.entries, decode);
      var t := Count(start, imageLsn, read.entries, decode);
      var last := Max(LastRead(read.entries, t.read, first), imageLsn);
      Report(ran, imageLsn, last, t.applied, t.rejected, if IsFatal(ran.st) then Clean else read.stop,
             if IsFatal(ran.st) then LastRead(read.entries, t.read, first) else 0,
             Tail(first, epoch, ResumeAt(read.entries, t.read, block), last + 1))
  }

  /** Images newest first, then one segment. */
  method Recover(reader: SegmentReader, files: seq<seq<Byte>>, cap: Capacity, m: seq<Byte>, decode: Decoder)
    returns (r: Report)
    requires forall i :: 0 <= i < |files| && LoadFile(reader.cs, files[i]).Loaded? ==>
               WellFormed(LoadFile(reader.cs, files[i]).w.d)
    modifies reader
    ensures WellFormed(Starting(reader.cs, files, cap))
    ensures r == Reported(Starting(reader.cs, files, cap), reader.cs, m, decode)
  {
    hide WellFormed, LoadFile, ReadAll, ReplayEntries, OpenSegment, Count, PadToBlock;
    var d := NewLedger(cap);
    var i := 0;
    while i < |files|
      invariant 0 <= i <= |files| && d == NewLedger(cap)
      invariant Starting(reader.cs, files, cap) == Starting(reader.cs, files[i..], cap)
    {
      assert files[i..][0] == files[i] && files[i..][1..] == files[i + 1..];
      var loading := LoadFile(reader.cs, files[i]);
      if loading.Loaded? {
        d := loading.w.d;
        break;
      }
      i := i + 1;
    }
    ghost var start := d;
    var imageLsn := d.appliedLsn;
    var expected: U64 := if imageLsn + 1 < LIMIT then imageLsn + 1 else 0;
    var ok := reader.Open(m, expected);
    if !ok {
      return Report(Ran(d, Ok), imageLsn, imageLsn, 0, 0, reader.stopReason, 0, NoTail);
    }
    var st, applied, rejected;
    st, d, applied, rejected := ReplayLog(reader, d, imageLsn, decode);
    var last := Max(reader.lastValidLsn, imageLsn);
    r := Report(Ran(d, st), imageLsn, last, applied, rejected, reader.stopReason,
                if IsFatal(st) then reader.lastValidLsn else 0,
                Tail(reader.firstLsn, reader.epoch, reader.resumeOffset, last + 1));
  }

  /** After `n` records: the ledger, and what was counted, and what is left leads where the whole does. */
  ghost predicate Progress(start: Ledger, imageLsn: nat, all: seq<Entry>, decode: Decoder, n: nat, d: Ledger,
                           applied: nat, rejected: nat)
    requires WellFormed(start)
  {
    && n <= |all| && WellFormed(d)
    && ReplayEntries(d, imageLsn, all[n..], decode) == ReplayEntries(start, imageLsn, all, decode)
    && var t, rest := Count(start, imageLsn, all, decode), Count(d, imageLsn, all[n..], decode);
    && t == Tally(n + rest.read, applied + rest.applied, rejected + rest.rejected)
  }

  /** The outcome, told from the records read: `n` of them. */
  ghost predicate Concludes(start: Ledger, imageLsn: nat, all: seq<Entry>, decode: Decoder, n: nat, d: Ledger, st: Err,
                          applied: nat, rejected: nat)
    requires WellFormed(start)
  {
    Ran(d, st) == ReplayEntries(start, imageLsn, all, decode)
    && Count(start, imageLsn, all, decode) == Tally(n, applied, rejected)
  }

  lemma ProgressStarts(start: Ledger, imageLsn: nat, all: seq<Entry>, decode: Decoder)
    requires WellFormed(start)
    ensures Progress(start, imageLsn, all, decode, 0, start, 0, 0)
  {
    hide WellFormed;
    assert all[0..] == all;
  }

  lemma ProgressEnds(start: Ledger, imageLsn: nat, all: seq<Entry>, decode: Decoder, n: nat, d: Ledger,
                     applied: nat, rejected: nat)
    requires WellFormed(start) && Progress(start, imageLsn, all, decode, n, d, applied, rejected) && n == |all|
    ensures Concludes(start, imageLsn, all, decode, n, d, Ok, applied, rejected)
  {
    hide WellFormed;
    assert all[n..] == [];
  }

  lemma ProgressOn(start: Ledger, imageLsn: nat, all: seq<Entry>, decode: Decoder, n: nat, d: Ledger,
                   applied: nat, rejected: nat)
    requires WellFormed(start) && Progress(start, imageLsn, all, decode, n, d, applied, rejected) && n < |all|
    ensures WellFormed(d)
    ensures var r := all[n].record;
            if r.lsn <= imageLsn then Progress(start, imageLsn, all, decode, n + 1, d, applied, rejected)
            else
              var a := Apply(d, r.lsn, decode(r.tmpl, r.payload));
              if IsFatal(a.st) then Concludes(start, imageLsn, all, decode, n + 1, a.d, a.st, applied, rejected)
              else if a.st == Ok then Progress(start, imageLsn, all, decode, n + 1, a.d, applied + 1, rejected)
              else Progress(start, imageLsn, all, decode, n + 1, a.d, applied, rejected + 1)
  {
    hide WellFormed, Apply, IsFatal;
    assert all[n..][0] == all[n] && all[n..][1..] == all[n + 1..];
  }

  /** The cursors of a reader after `n` of the records it had left: the last LSN, and where a writer goes on. */
  function CursorsAfter(all: seq<Entry>, n: nat, block: Block, lastValid: U64, resume: nat): (U64, nat)
    requires n <= |all|
  {
    if n == 0 then (lastValid, resume) else (all[n - 1].record.lsn, PadToBlock(End(all[n - 1]), block))
  }

  /** One scan against all that was to be read: what it finds is the next record, and the rest is read from its end. */
  lemma ReadOn(g: Segment, off: nat, expected: U64, resume: nat, all: Replay, n: nat)
    requires n <= |all.entries| && ReadAll(g, off, expected, resume) == all.(entries := all.entries[n..])
    ensures var s := Scan(g, off, expected);
            && (s.Stopped? ==> n == |all.entries| && all.stop == s.reason)
            && (s.Got? ==>
                  var e := s.entry;
                  && n < |all.entries| && all.entries[n] == e && off < End(e) <= |g.bytes|
                  && ReadAll(g, End(e), NextLsn(e.record.lsn), PadToBlock(End(e), g.block))
                     == all.(entries := all.entries[n + 1..]))
  {
    hide Scan;
    var s := Scan(g, off, expected);
    if s.Got? {
      ScanAccepts(g, off, expected);
      assert all.entries[n..][0] == s.entry && all.entries[n..][1..] == all.entries[n + 1..];
    }
  }

  /** Record after record, until the reader stops or an event is fatal. */
  method ReplayLog(reader: SegmentReader, start: Ledger, imageLsn: nat, decode: Decoder)
    returns (st: Err, d: Ledger, applied: nat, rejected: nat)
    requires WellFormed(start)
    modifies reader
    ensures var all := old(reader.Remaining());
            var n := Count(start, imageLsn, all.entries, decode).read;
            && Concludes(start, imageLsn, all.entries, decode, n, d, st, applied, rejected)
            && (reader.lastValidLsn, reader.resumeOffset)
               == CursorsAfter(all.entries, n, reader.block, old(reader.lastValidLsn), old(reader.resumeOffset))
            && reader.stopReason == if IsFatal(st) then old(reader.stopReason) else all.stop
    ensures unchanged(reader`epoch) && unchanged(reader`firstLsn) && unchanged(reader`block)
  {
    hide WellFormed, Scan, Apply, IsFatal, PadToBlock, Progress, ReplayEntries, Count, ReadAll, End, NextLsn;
    d, st, applied, rejected := start, Ok, 0, 0;
    ghost var all := reader.Remaining();
    ghost var n := 0;
    assert all.entries[0..] == all.entries;
    ProgressStarts(start, imageLsn, all.entries, decode);
    OkIsNotFatal();
    while true
      invariant n <= |all.entries| && Progress(start, imageLsn, all.entries, decode, n, d, applied, rejected)
      invariant reader.Remaining() == all.(entries := all.entries[n..])
      invariant unchanged(reader`epoch) && unchanged(reader`firstLsn) && unchanged(reader`block)
      invariant unchanged(reader`stopReason)
      invariant (reader.lastValidLsn, reader.resumeOffset)
             == CursorsAfter(all.entries, n, reader.block, old(reader.lastValidLsn), old(reader.resumeOffset))
      decreases |reader.mapped| - reader.offset
    {
      ghost var g, off, expected, resume := reader.Seg(), reader.offset, reader.expectedLsn, reader.resumeOffset;
      var got, e := reader.Next();
      if !got {
        ReadOn(g, off, expected, resume, all, n);
        ProgressEnds(start, imageLsn, all.entries, decode, n, d, applied, rejected);
        return Ok, d, applied, rejected;
      }
      ReadOn(g, off, expected, resume, all, n);
      ProgressOn(start, imageLsn, all.entries, decode, n, d, applied, rejected);
      n := n + 1;
      if e.record.lsn <= imageLsn {
        continue;
      }
      var a := Apply(d, e.record.lsn, decode(e.record.tmpl, e.record.payload));
      d := a.d;
      if IsFatal(a.st) {
        return a.st, d, applied, rejected;
      }
      if a.st == Ok {
        applied := applied + 1;
      } else {
        rejected := rejected + 1;
      }
    }
  }

  lemma OkIsNotFatal()
    ensures !IsFatal(Ok)
  {
  }

  /** Recovery from an image ahead of all that can be read goes on past the image: the LSNs between stay unused, and
      no record of them is in the log. */
  lemma ImageAhead(start: Ledger, cs: Checksum, m: seq<Byte>, decode: Decoder, epoch: U32, block: Block)
    requires WellFormed(start) && 1 + |m| <= LIMIT && OpenSegment(cs, m, 1) == Opened(epoch, 1, block)
    requires var got := ReadAll(Segment(cs, m, epoch, block), SEGMENT_HDR_BYTES, 1, SEGMENT_HDR_BYTES).entries;
             |got| < start.appliedLsn < LIMIT - 1
    ensures var r := Reported(start, cs, m, decode);
            && r.ran == Ran(start, Ok) && r.applied == r.rejected == 0 && r.lastValid == start.appliedLsn
            && r.tail.Tail? && r.tail.nextLsn == start.appliedLsn + 1
  {
    hide WellFormed, OpenSegment, ReadAll, ReplayEntries, Count, ResumeAt, IsFatal;
    var g := Segment(cs, m, epoch, block);
    var got := ReadAll(g, SEGMENT_HDR_BYTES, 1, SEGMENT_HDR_BYTES).entries;
    ReadIsConsecutive(g);
    OkIsNotFatal();
    assert LastRead(got, |got|, 1) == |got|;
    hide Consecutive, LastRead;
    OpensEitherWay(cs, m, start.appliedLsn + 1);
    AllSkipped(start, start.appliedLsn, got, decode, 1);
  }

  lemma OpensEitherWay(cs: Checksum, m: seq<Byte>, expected: U64)
    requires OpenSegment(cs, m, 1).Opened? && expected >= 1
    ensures OpenSegment(cs, m, expected) == OpenSegment(cs, m, 1)
  {
  }

  lemma {:induction false} AllSkipped(d: Ledger, imageLsn: nat, es: seq<Entry>, decode: Decoder, first: nat)
    requires WellFormed(d) && Consecutive(es, first) && first + |es| <= imageLsn + 1
    ensures ReplayEntries(d, imageLsn, es, decode) == Ran(d, Ok)
    ensures Count(d, imageLsn, es, decode) == Tally(|es|, 0, 0)
    decreases |es|
  {
    hide WellFormed;
    if es != [] {
      assert es[0].record.lsn == first;
      assert forall i :: 0 <= i < |es| - 1 ==> es[1..][i] == es[i + 1];
      AllSkipped(d, imageLsn, es[1..], decode, first + 1);
    }
  }

  // ---------------------------------------------------------------- where a writer goes on

  /** Whatever the bytes, the next LSN is past the image and past every record read, and one past one of them. */
  lemma ResumesPastAll(start: Ledger, cs: Checksum, m: seq<Byte>, decode: Decoder, epoch: U32, first: U64, block: Block)
    requires WellFormed(start) && first >= 1 && first + |m| <= LIMIT
    requires var imageLsn := start.appliedLsn;
             OpenSegment(cs, m, if imageLsn + 1 < LIMIT then imageLsn + 1 else 0) == Opened(epoch, first, block)
    ensures var r := Reported(start, cs, m, decode);
            var read := ReadAll(Segment(cs, m, epoch, block), SEGMENT_HDR_BYTES, first, SEGMENT_HDR_BYTES).entries;
            var n := Count(start, start.appliedLsn, read, decode).read;
            && r.tail.Tail? && r.tail.nextLsn == r.lastValid + 1 > start.appliedLsn
            && (forall i :: 0 <= i < n ==> read[i].record.lsn < r.tail.nextLsn)
            && (r.tail.nextLsn == start.appliedLsn + 1 || r.tail.nextLsn == first
                || (n > 0 && r.tail.nextLsn == read[n - 1].record.lsn + 1))
  {
    hide WellFormed, OpenSegment, ReadAll, ReplayEntries, Count, ResumeAt, IsFatal;
    var g := Segment(cs, m, epoch, block);
    var read := ReadAll(g, SEGMENT_HDR_BYTES, first, SEGMENT_HDR_BYTES).entries;
    forall i | 0 <= i < |read|
      ensures read[i].record.lsn == first + i
    {
      ArbitraryBytes(g, first, SEGMENT_HDR_BYTES, i);
    }
  }

  /** A fatal event is the last record read, and the report names it; only then is anything readable left unread. */
  lemma FatalIsNamed(start: Ledger, cs: Checksum, m: seq<Byte>, decode: Decoder, epoch: U32, first: U64, block: Block)
    requires WellFormed(start)
    requires var imageLsn := start.appliedLsn;
             OpenSegment(cs, m, if imageLsn + 1 < LIMIT then imageLsn + 1 else 0) == Opened(epoch, first, block)
    ensures var r := Reported(start, cs, m, decode);
            var read := ReadAll(Segment(cs, m, epoch, block), SEGMENT_HDR_BYTES, first, SEGMENT_HDR_BYTES);
            var n := Count(start, start.appliedLsn, read.entries, decode).read;
            if IsFatal(r.ran.st) then n > 0 && r.fatalLsn == read.entries[n - 1].record.lsn && r.stop == Clean
            else n == |read.entries| && r.fatalLsn == 0 && r.stop == read.stop
  {
    hide WellFormed, OpenSegment, ReadAll, ReplayEntries, Count, ResumeAt, IsFatal;
    var read := ReadAll(Segment(cs, m, epoch, block), SEGMENT_HDR_BYTES, first, SEGMENT_HDR_BYTES);
    FatalIsLast(start, start.appliedLsn, read.entries, decode);
  }

  /** After a log that is wholly durable, recovery hands on what its writer had: the next LSN and the offset it was to
      write at; and every record past the image was applied or rejected. */
  lemma WriterGoesOn(w: WriteAheadLog.Wal, start: Ledger, decode: Decoder)
    requires w.Valid() && w.group.popped == |w.group.chunks| && w.group.cur == [] && w.lastLsn > 0
    requires LogRoundTrip.ZerosHeld(Seg(w.group.Pipe()), w.segOffset, |w.group.dev.file|)
    requires WellFormed(start) && start.appliedLsn <= w.lastLsn
    requires !IsFatal(ReplayEntries(start, start.appliedLsn, w.Logged(), decode).st)
    ensures var r := Reported(start, w.group.cs, w.group.dev.file, decode);
            && r.ran == ReplayEntries(start, start.appliedLsn, w.Logged(), decode) && r.stop == Clean
            && r.tail == Tail(1, w.group.epoch, w.segOffset, w.lastLsn + 1)
            && r.applied + r.rejected == w.lastLsn - start.appliedLsn
  {
    hide WellFormed, OpenSegment, ReadAll, ReplayEntries, Count, ResumeAt, IsFatal, Consecutive;
    hide WriteAheadLog.Wal.Valid, LogRoundTrip.ZerosHeld, LogRoundTrip.AllEntries;
    var g := Seg(w.group.Pipe());
    LsnFits(w);
    WriteAheadLog.DurableRecovered(w);
    WriteAheadLog.CleanReadBack(w);
    OpensEitherWay(g.cs, g.bytes, start.appliedLsn + 1);
    var es := w.Logged();
    Numbered(es);
    FatalIsLast(start, start.appliedLsn, es, decode);
    AllCounted(start, start.appliedLsn, es, decode, 1);
    ResumesAtLast(g, SEGMENT_HDR_BYTES, 1, SEGMENT_HDR_BYTES);
    assert LastRead(es, |es|, 1) == w.lastLsn;
  }

  lemma LsnFits(w: WriteAheadLog.Wal)
    requires w.Valid()
    ensures w.lastLsn + 1 < LIMIT
  {
  }

  lemma Numbered(es: seq<Entry>)
    requires forall i :: 0 <= i < |es| ==> es[i].record.lsn == i + 1
    ensures Consecutive(es, 1)
  {
  }

  /** Of records numbered one after the other, those past the image are applied or rejected, each once. */
  lemma {:induction false} AllCounted(d: Ledger, imageLsn: nat, es: seq<Entry>, decode: Decoder, first: nat)
    requires WellFormed(d) && Consecutive(es, first) && !IsFatal(ReplayEntries(d, imageLsn, es, decode).st)
    ensures var t := Count(d, imageLsn, es, decode);
            t.applied + t.rejected
            == if imageLsn + 1 <= first then |es|
               else if imageLsn + 1 < first + |es| then first + |es| - imageLsn - 1 else 0
    decreases |es|
  {
    hide WellFormed, IsFatal, Apply;
    if es != [] {
      assert es[0].record.lsn == first;
      assert forall i :: 0 <= i < |es| - 1 ==> es[1..][i] == es[i + 1];
      if first <= imageLsn {
        AllCounted(d, imageLsn, es[1..], decode, first + 1);
      } else {
        var a := Apply(d, first, decode(es[0].record.tmpl, es[0].record.payload));
        AllCounted(a.d, imageLsn, es[1..], decode, first + 1);
      }
    }
  }

  /** A reader resumes after the last record it read. */
  lemma {:induction false} ResumesAtLast(g: Segment, off: nat, expected: U64, resume: nat)
    ensures var r := ReadAll(g, off, expected, resume);
            r.resume == if r.entries == [] then resume else ResumeAt(r.entries, |r.entries|, g.block)
    decreases |g.bytes| - off
  {
    hide Scan, PadToBlock;
    var s := Scan(g, off, expected);
    if s.Got? {
      ScanAccepts(g, off, expected);
      ResumesAtLast(g, End(s.entry), NextLsn(s.entry.record.lsn), PadToBlock(End(s.entry), g.block));
    }
  }
}
