/** The gate through which outputs leave: a ring of slots over a circular byte buffer. */
module Outboxes {
  import opened Bytes
  import opened Status
  import opened OutboxLayout

  datatype OutKind = ReadModelUpdate | PartitionMessage | Confirmation | Audit | Exception

  datatype Output = Output(lsn: U64, kind: OutKind, bytes: seq<Byte>)

  datatype OutboxEntry = OutboxEntry(lsn: U64, offset: nat, len: U16, kind: OutKind)

  /** What the 16-bit length field keeps of a length. */
  function Low16(n: nat): U16 {
    n % 0x1_0000
  }

  function Min(a: nat, b: nat): nat {
    if a < b then a else b
  }

  /** The pending outputs, oldest first, where each was put, how many precede the wrap, and the bytes. */
  datatype Pending = Pending(queue: seq<Output>, places: seq<Extent>, wrapAt: nat, bufHead: nat, buf: seq<Byte>)

  /** The buffer holds each pending payload at its place. */
  ghost predicate Held(buf: seq<Byte>, places: seq<Extent>, queue: seq<Output>) {
    && |places| == |queue|
    && forall i :: 0 <= i < |queue| ==> places[i].len == |queue[i].bytes| && Holds(buf, places[i].off, queue[i].bytes)
  }

  /** Every pending payload still reads as it was staged. */
  ghost predicate Sound(p: Pending) {
    Laid(p.places, p.wrapAt, p.bufHead, |p.buf|) && Held(p.buf, p.places, p.queue)
  }

  ghost predicate AtBrim(p: Pending) {
    Brim(p.places, p.wrapAt, p.bufHead)
  }

  function Live(places: seq<Extent>): nat {
    if places == [] then 0 else places[0].off
  }

  /** Where an output of `len` bytes goes, if it goes anywhere. */
  function PlaceFor(p: Pending, len: nat): Place
    requires len <= |p.buf| && p.bufHead <= |p.buf| && Live(p.places) <= |p.buf|
  {
    Choose(|p.places|, Live(p.places), p.bufHead, |p.buf|, len)
  }

  /** How many pending outputs precede the wrap once one more lies at `at`. */
  function NextWrap(places: seq<Extent>, wrapAt: nat, bufHead: nat, at: nat): nat {
    if places != [] && (wrapAt < |places| || at != bufHead) then wrapAt else |places| + 1
  }

  function Staged(p: Pending, at: nat, o: Output): Pending
    requires at + |o.bytes| <= |p.buf|
  {
    Pending(p.queue + [o], p.places + [Extent(at, |o.bytes|)], NextWrap(p.places, p.wrapAt, p.bufHead, at),
            at + |o.bytes|, Splice(p.buf, at, o.bytes))
  }

  function Released(p: Pending, n: nat): Pending
    requires n <= |p.queue| == |p.places|
  {
    p.(queue := p.queue[n..], places := p.places[n..],
       wrapAt := if n < p.wrapAt then p.wrapAt - n else |p.places| - n)
  }

  lemma HeldElsewhere(buf: seq<Byte>, places: seq<Extent>, queue: seq<Output>, at: nat, src: seq<Byte>)
    requires Held(buf, places, queue) && at + |src| <= |buf|
    requires forall i :: 0 <= i < |places| ==> Apart(places[i], Extent(at, |src|))
    ensures Held(Splice(buf, at, src), places, queue)
  {
    forall i | 0 <= i < |queue|
      ensures Holds(Splice(buf, at, src), places[i].off, queue[i].bytes)
    {
      assert Apart(places[i], Extent(at, |src|));
      if |src| > 0 && places[i].len > 0 {
        SpliceKeeps(buf, at, src, places[i].off, EndOf(places[i]));
      } else if |src| == 0 {
        assert Splice(buf, at, src) == buf;
      }
    }
  }

  lemma HeldSnoc(buf: seq<Byte>, places: seq<Extent>, queue: seq<Output>, off: nat, o: Output)
    requires Held(buf, places, queue) && Holds(buf, off, o.bytes)
    ensures Held(buf, places + [Extent(off, |o.bytes|)], queue + [o])
  {
  }

  /** Short of the brim, staging leaves every pending payload readable as it was. */
  lemma StagedSound(p: Pending, o: Output)
    requires Sound(p) && !AtBrim(p) && |o.bytes| <= |p.buf| && PlaceFor(p, |o.bytes|).At?
    ensures Sound(Staged(p, PlaceFor(p, |o.bytes|).off, o))
  {
    hide Splice;
    var at := PlaceFor(p, |o.bytes|).off;
    ChooseExtends(p.places, p.wrapAt, p.bufHead, |p.buf|, |o.bytes|);
    forall i | 0 <= i < |p.places|
      ensures Apart(p.places[i], Extent(at, |o.bytes|))
    {
      ChooseIsApart(p.places, p.wrapAt, p.bufHead, |p.buf|, |o.bytes|, i);
    }
    HeldElsewhere(p.buf, p.places, p.queue, at, o.bytes);
    SplicePlaces(p.buf, at, o.bytes);
    HeldSnoc(Splice(p.buf, at, o.bytes), p.places, p.queue, at, o);
  }

  lemma ReleasedSound(p: Pending, n: nat)
    requires Sound(p) && n <= |p.queue|
    ensures Sound(Released(p, n))
  {
    ReleaseKeeps(p.places, p.wrapAt, p.bufHead, |p.buf|, n);
  }

  /** Exactly when an accepted output goes over a pending payload, no payload being empty: at the brim. */
  lemma OverwritesExactly(p: Pending, len: nat)
    requires Sound(p) && 0 < len <= |p.buf| && PlaceFor(p, len).At?
    requires forall i :: 0 <= i < |p.places| ==> 0 < p.places[i].len
    ensures AtBrim(p) <==> exists i :: 0 <= i < |p.places| && !Apart(p.places[i], Extent(PlaceFor(p, len).off, len))
  {
    if AtBrim(p) {
      BrimOverwrites(p.places, p.wrapAt, p.bufHead, |p.buf|, len);
    } else {
      forall i | 0 <= i < |p.places|
        ensures Apart(p.places[i], Extent(PlaceFor(p, len).off, len))
      {
        ChooseIsApart(p.places, p.wrapAt, p.bufHead, |p.buf|, len, i);
      }
    }
  }

  /** Payloads of at most `maxLen` bytes, and buffer for one more of them than there are slots. */
  ghost predicate Roomy(p: Pending, slots: nat, maxLen: nat) {
    (slots + 1) * maxLen <= |p.buf| && forall i :: 0 <= i < |p.queue| ==> |p.queue[i].bytes| <= maxLen
  }

  lemma RoomyNeverAtBrim(p: Pending, slots: nat, maxLen: nat)
    requires Sound(p) && |p.queue| <= slots && Roomy(p, slots, maxLen)
    ensures !AtBrim(p)
  {
    NeverAtBrim(p.places, p.wrapAt, p.bufHead, |p.buf|, slots, maxLen);
  }

  // ---------------------------------------------------------------- the slot ring

  function Slot(n: nat, head: nat, i: nat): (s: nat)
    requires head < n && i <= n
    ensures s < n
  {
    if head + i < n then head + i else head + i - n
  }

  function EntryFor(o: Output, x: Extent): OutboxEntry {
    OutboxEntry(o.lsn, x.off, Low16(x.len), o.kind)
  }

  /** The slots from `head` on describe the pending outputs. */
  ghost predicate Described(slots: seq<OutboxEntry>, head: nat, queue: seq<Output>, places: seq<Extent>) {
    && head < |slots| && |queue| == |places| <= |slots|
    && forall i :: 0 <= i < |queue| ==> slots[Slot(|slots|, head, i)] == EntryFor(queue[i], places[i])
  }

  /** Each place is as long as its payload and inside the buffer. */
  ghost predicate Sized(queue: seq<Output>, places: seq<Extent>, cap: nat) {
    && |queue| == |places|
    && forall i :: 0 <= i < |queue| ==> EndOf(places[i]) <= cap && places[i].len == |queue[i].bytes|
  }

  lemma SizedPush(queue: seq<Output>, places: seq<Extent>, cap: nat, o: Output, at: nat)
    requires Sized(queue, places, cap) && at + |o.bytes| <= cap
    ensures Sized(queue + [o], places + [Extent(at, |o.bytes|)], cap)
    ensures Live(places) <= cap && |queue| == |places|
  {
  }

  lemma LiveFits(queue: seq<Output>, places: seq<Extent>, cap: nat)
    requires Sized(queue, places, cap)
    ensures Live(places) <= cap
  {
  }

  lemma DescribedPush(slots: seq<OutboxEntry>, head: nat, queue: seq<Output>, places: seq<Extent>, o: Output, x: Extent)
    requires Described(slots, head, queue, places) && |queue| < |slots|
    ensures Described(slots[Slot(|slots|, head, |queue|) := EntryFor(o, x)], head, queue + [o], places + [x])
  {
  }

  lemma DescribedHead(slots: seq<OutboxEntry>, head: nat, queue: seq<Output>, places: seq<Extent>)
    requires Described(slots, head, queue, places)
    ensures head < |slots| && |queue| == |places| <= |slots|
  {
  }

  lemma DescribedPop(slots: seq<OutboxEntry>, head: nat, queue: seq<Output>, places: seq<Extent>, n: nat)
    requires Described(slots, head, queue, places) && n <= |queue|
    ensures Described(slots, if n == |slots| then head else Slot(|slots|, head, n), queue[n..], places[n..])
  {
    if n < |slots| {
      var head' := Slot(|slots|, head, n);
      forall i | 0 <= i < |queue| - n
        ensures slots[Slot(|slots|, head', i)] == EntryFor(queue[n..][i], places[n..][i])
      {
        assert Slot(|slots|, head', i) == Slot(|slots|, head, n + i);
      }
    }
  }

  class Outbox {
    var slots: seq<OutboxEntry>
    var buf: seq<Byte>
    var bufHead: nat
    var head: nat
    var count: nat
    var stagedTotal: nat
    var releasedTotal: nat
    var frozen: bool
    /** Everything ever staged, and what of it is still pending. */
    ghost var history: seq<Output>
    ghost var queue: seq<Output>
    ghost var places: seq<Extent>
    ghost var wrapAt: nat

    ghost function View(): Pending
      reads this
    {
      Pending(queue, places, wrapAt, bufHead, buf)
    }

    /** The slots describe the pending outputs, whatever became of their bytes. */
    ghost predicate Valid()
      reads this
    {
      && Described(slots, head, queue, places) && count == |queue| && bufHead <= |buf|
      && stagedTotal == releasedTotal + count == |history| && queue == history[releasedTotal..]
      && Sized(queue, places, |buf|)
    }

    /** Power-of-two slot counts: the smallest from 16 up that is enough. */
    constructor (wanted: nat, payloadBytes: nat)
      ensures Valid() && Sound(View()) && history == [] && !frozen && releasedTotal == 0
      ensures |buf| == payloadBytes && |slots| >= wanted && |slots| >= 16
      ensures |slots| > 16 ==> |slots| < 2 * wanted
    {
      var n := 16;
      while n < wanted
        invariant n >= 16 && (n > 16 ==> n < 2 * wanted)
      {
        n := 2 * n;
      }
      slots := seq(n, _ => OutboxEntry(0, 0, 0, ReadModelUpdate));
      buf := Zeros(payloadBytes);
      bufHead, head, count, stagedTotal, releasedTotal, frozen := 0, 0, 0, 0, 0, false;
      history, queue, places, wrapAt := [], [], [], 0;
    }

    ghost function StageOutcome(len: nat): Err
      requires Valid()
      reads this
    {
      if count >= |slots| then ArenaExhausted
      else if len > |buf| then OutOfRange
      else if PlaceFor(View(), len).NoRoom? then ArenaExhausted
      else Ok
    }

    /** Where a payload goes: never in two pieces, so back to byte 0 when the end is too near. */
    method FindPlace(len: nat) returns (p: Place)
      requires Valid() && len <= |buf|
      ensures Live(places) <= |buf| && p == PlaceFor(View(), len)
    {
      if count == 0 {
        return At(0);
      }
      assert Slot(|slots|, head, 0) == head;
      var live := slots[head].offset;
      if bufHead >= live {
        if bufHead + len > |buf| {
          return if len > live then NoRoom else At(0);
        }
      } else if bufHead + len > live {
        return NoRoom;
      }
      return At(bufHead);
    }

    /** Stages an output at the place chosen for it, or changes nothing. */
    method Stage(lsn: U64, kind: OutKind, payload: seq<Byte>) returns (r: Err)
      requires Valid()
      modifies this
      ensures Valid() && r == old(StageOutcome(|payload|))
      ensures r != Ok ==> unchanged(this)
      ensures r == Ok ==> old(Live(places)) <= |old(buf)| && |payload| <= |old(buf)|
      ensures r == Ok ==> old(PlaceFor(View(), |payload|)).At?
      ensures r == Ok ==>
        View() == Staged(old(View()), old(PlaceFor(View(), |payload|)).off, Output(lsn, kind, payload))
      ensures r == Ok ==> history == old(history) + [Output(lsn, kind, payload)]
      ensures |slots| == old(|slots|) && frozen == old(frozen) && releasedTotal == old(releasedTotal)
    {
      hide Splice, Choose, Described, Sized;
      if count >= |slots| {
        return ArenaExhausted;
      }
      if |payload| > |buf| {
        return OutOfRange;
      }
      var place := FindPlace(|payload|);
      if place.NoRoom? {
        return ArenaExhausted;
      }
      Put(place.off, lsn, kind, payload);
      return Ok;
    }

    /** Copies the payload in and fills the next slot. */
    method Put(at: nat, lsn: U64, kind: OutKind, payload: seq<Byte>)
      requires Valid() && count < |slots| && at + |payload| <= |buf|
      modifies this
      ensures Valid() && View() == Staged(old(View()), at, Output(lsn, kind, payload))
      ensures history == old(history) + [Output(lsn, kind, payload)]
      ensures |slots| == old(|slots|) && frozen == old(frozen) && releasedTotal == old(releasedTotal)
    {
      hide Splice, Described, Sized, Low16, Slot, NextWrap;
      ghost var o, x := Output(lsn, kind, payload), Extent(at, |payload|);
      DescribedPush(slots, head, queue, places, o, x);
      SizedPush(queue, places, |buf|, o, at);
      DescribedHead(slots, head, queue, places);
      assert (history + [o])[releasedTotal..] == queue + [o];
      slots := slots[Slot(|slots|, head, count) := OutboxEntry(lsn, at, Low16(|payload|), kind)];
      buf := Splice(buf, at, payload);
      wrapAt := NextWrap(places, wrapAt, bufHead, at);
      history, queue, places := history + [o], queue + [o], places + [x];
      bufHead := at + |payload|;
      count, stagedTotal := count + 1, stagedTotal + 1;
    }

    /** Room for `entries` outputs of `bytes` bytes in all? */
    method HasRoom(entries: nat, bytes: nat) returns (r: bool)
      requires Valid()
      ensures r <==> count + entries <= |slots| && bytes <= |buf|
                     && bytes <= FreeRun(count, Live(places), bufHead, |buf|)
    {
      if count + entries > |slots| {
        return false;
      }
      if bytes > |buf| {
        return false;
      }
      if count == 0 {
        return true;
      }
      assert Slot(|slots|, head, 0) == head;
      var live := slots[head].offset;
      var free := if bufHead >= live then if |buf| - bufHead > live then |buf| - bufHead else live else live - bufHead;
      return free >= bytes;
    }

    /** The longest prefix of pending outputs no newer than `durable`; none at all once frozen. */
    method Ready(durable: U64) returns (n: nat)
      requires Valid()
      ensures n <= count && (frozen ==> n == 0)
      ensures forall i :: 0 <= i < n ==> queue[i].lsn <= durable
      ensures !frozen && n < count ==> queue[n].lsn > durable
    {
      if frozen {
        return 0;
      }
      n := 0;
      while n < count && slots[Slot(|slots|, head, n)].lsn <= durable
        invariant n <= count && forall i :: 0 <= i < n ==> queue[i].lsn <= durable
      {
        n := n + 1;
      }
    }

    /** The bytes a reader gets for the `i`-th pending output. */
    method Payload(i: nat) returns (bytes: seq<Byte>)
      requires Valid() && i < count
      ensures EndOf(places[i]) <= |buf|
      ensures bytes == buf[places[i].off..places[i].off + Low16(places[i].len)]
      ensures Sound(View()) && |queue[i].bytes| < 0x1_0000 ==> bytes == queue[i].bytes
    {
      var e := slots[Slot(|slots|, head, i)];
      bytes := buf[e.offset..e.offset + e.len];
    }

    method Commit(n: nat)
      requires Valid()
      modifies this
      ensures Valid() && View() == Released(old(View()), Min(n, old(count)))
      ensures |slots| == old(|slots|) && frozen == old(frozen) && history == old(history)
      ensures releasedTotal == old(releasedTotal) + Min(n, old(count))
    {
      hide Described;
      var k := Min(n, count);
      DescribedHead(slots, head, queue, places);
      DescribedPop(slots, head, queue, places, k);
      wrapAt := if k < wrapAt then wrapAt - k else count - k;
      head := if k == |slots| then head else Slot(|slots|, head, k);
      queue, places := queue[k..], places[k..];
      count, releasedTotal := count - k, releasedTotal + k;
    }

    method Freeze()
      requires Valid()
      modifies `frozen
      ensures Valid() && frozen && View() == old(View())
    {
      frozen := true;
    }
  }

  // ---------------------------------------------------------------- reservations

  function Lengths(outs: seq<Output>): (r: seq<nat>)
    ensures |r| == |outs|
  {
    seq(|outs|, i requires 0 <= i < |outs| => |outs[i].bytes|)
  }

  /** Every pending payload reads as it was staged, and the buffer is large enough that it stays so: there is room in it
      for one payload of `maxLen` bytes more than there are slots. */
  ghost predicate Safe(box: Outbox, maxLen: nat)
    reads box
  {
    Sound(box.View()) && Roomy(box.View(), |box.slots|, maxLen)
  }

  ghost predicate AllShort(outs: seq<Output>, maxLen: nat) {
    forall i :: 0 <= i < |outs| ==> |outs[i].bytes| <= maxLen
  }

  /** Staging a payload no longer than the buffer was sized for disturbs nothing pending. */
  lemma StagedSafely(p: Pending, slots: nat, maxLen: nat, o: Output)
    requires Sound(p) && Roomy(p, slots, maxLen) && |p.queue| <= slots && |o.bytes| <= maxLen && |o.bytes| <= |p.buf|
    requires PlaceFor(p, |o.bytes|).At?
    ensures var q := Staged(p, PlaceFor(p, |o.bytes|).off, o);
            Sound(q) && Roomy(q, slots, maxLen)
  {
    hide Sound, Choose, Splice;
    RoomyNeverAtBrim(p, slots, maxLen);
    StagedSound(p, o);
  }

  /** Reserved room is enough: outputs within the reservation are all staged, whatever their sizes; and in a buffer of
      that size nothing pending is disturbed. */
  method StageAll(box: Outbox, outs: seq<Output>, ghost maxLen: nat)
    requires box.Valid() && box.count + |outs| <= |box.slots|
    requires Total(Lengths(outs)) <= FreeRun(box.count, Live(box.places), box.bufHead, |box.buf|)
    modifies box
    ensures box.Valid() && box.queue == old(box.queue) + outs && box.history == old(box.history) + outs
    ensures |box.slots| == old(|box.slots|) && |box.buf| == old(|box.buf|) && box.frozen == old(box.frozen)
    ensures box.releasedTotal == old(box.releasedTotal)
    ensures old(Safe(box, maxLen)) && AllShort(outs, maxLen) ==> Safe(box, maxLen)
  {
    hide Splice, Choose, Described, Sized, Total, Sound, Roomy, AllShort;
    LiveFits(box.queue, box.places, |box.buf|);
    RoomIsEnough(box.count, Live(box.places), box.bufHead, |box.buf|, Lengths(outs));
    var i := 0;
    assert outs[0..] == outs;
    while i < |outs|
      invariant 0 <= i <= |outs| && box.Valid() && box.queue == old(box.queue) + outs[..i]
      invariant box.history == old(box.history) + outs[..i]
      invariant |box.slots| == old(|box.slots|) && |box.buf| == old(|box.buf|) && box.frozen == old(box.frozen)
      invariant box.releasedTotal == old(box.releasedTotal)
      invariant box.bufHead <= |box.buf| && Live(box.places) <= |box.buf|
      invariant AllFit(box.count, Live(box.places), box.bufHead, |box.buf|, Lengths(outs[i..]))
      invariant old(Safe(box, maxLen)) && AllShort(outs, maxLen) ==> Safe(box, maxLen)
    {
      LengthsStep(outs[i..]);
      DescribedHead(box.slots, box.head, box.queue, box.places);
      assert outs[i..][1..] == outs[i + 1..];
      ghost var v, n := box.View(), |box.slots|;
      var r := box.Stage(outs[i].lsn, outs[i].kind, outs[i].bytes);
      if old(Safe(box, maxLen)) && AllShort(outs, maxLen) {
        OneShort(outs, maxLen, i);
        StagedSafely(v, n, maxLen, outs[i]);
      }
      assert outs[..i + 1] == outs[..i] + [outs[i]];
      i := i + 1;
    }
    assert outs[..i] == outs;
  }

  lemma OneShort(outs: seq<Output>, maxLen: nat, i: nat)
    requires AllShort(outs, maxLen) && i < |outs|
    ensures |outs[i].bytes| <= maxLen && Output(outs[i].lsn, outs[i].kind, outs[i].bytes) == outs[i]
  {
  }

  lemma LengthsStep(outs: seq<Output>)
    requires outs != []
    ensures Lengths(outs)[0] == |outs[0].bytes| && Lengths(outs)[1..] == Lengths(outs[1..])
  {
  }

  // ---------------------------------------------------------------- whole runs

  datatype Op = DoStage(o: Output) | DoRelease(n: nat)

  /** Over any run of staging and releasing, with buffer for one more payload than there are slots, the
      `k`-th output released carries the bytes of the `k`-th output staged. */
  method Pump(box: Outbox, ops: seq<Op>, maxLen: nat) returns (out: seq<seq<Byte>>)
    requires box.Valid() && Safe(box, maxLen) && box.history == [] && maxLen < 0x1_0000
    requires forall i :: 0 <= i < |ops| && ops[i].DoStage? ==> |ops[i].o.bytes| <= maxLen
    modifies box
    ensures box.Valid() && |out| == box.releasedTotal <= |box.history|
    ensures forall k :: 0 <= k < |out| ==> out[k] == box.history[k].bytes
    ensures box.queue == box.history[|out|..]
  {
    hide Outbox.Valid, Safe;
    Plain(box);
    out := [];
    var i := 0;
    while i < |ops|
      invariant 0 <= i <= |ops| && box.Valid() && Safe(box, maxLen)
      invariant |out| == box.releasedTotal <= |box.history|
      invariant forall k :: 0 <= k < |out| ==> out[k] == box.history[k].bytes
    {
      Plain(box);
      match ops[i] {
        case DoStage(o) =>
          var _ := StageSafely(box, o, maxLen);
        case DoRelease(n) =>
          var some := Release(box, n, maxLen);
          out := out + some;
      }
      i := i + 1;
    }
    Plain(box);
  }

  lemma Plain(box: Outbox)
    requires box.Valid()
    ensures box.releasedTotal <= |box.history| && box.queue == box.history[box.releasedTotal..]
    ensures box.count == |box.queue| <= |box.slots|
  {
  }

  method StageSafely(box: Outbox, o: Output, ghost maxLen: nat) returns (r: Err)
    requires box.Valid() && Safe(box, maxLen) && |o.bytes| <= maxLen
    modifies box
    ensures box.Valid() && Safe(box, maxLen)
    ensures r == old(box.StageOutcome(|o.bytes|)) && |box.slots| == old(|box.slots|)
    ensures box.releasedTotal == old(box.releasedTotal)
    ensures box.history == old(box.history) + if r == Ok then [o] else []
  {
    hide Outbox.Valid, Sound, Roomy, Choose, Splice;
    Plain(box);
    ghost var v, n := box.View(), |box.slots|;
    r := box.Stage(o.lsn, o.kind, o.bytes);
    if r == Ok {
      StagedSafely(v, n, maxLen, o);
    }
  }

  /** Reads out the `n` oldest pending outputs, then releases them. */
  method Release(box: Outbox, n: nat, ghost maxLen: nat) returns (out: seq<seq<Byte>>)
    requires box.Valid()
    modifies box
    ensures |out| == Min(n, old(|box.queue|)) && box.releasedTotal == old(box.releasedTotal) + |out|
    ensures box.Valid() && box.queue == old(box.queue)[|out|..]
    ensures box.history == old(box.history) && |box.slots| == old(|box.slots|) && box.frozen == old(box.frozen)
    ensures old(Safe(box, maxLen)) && maxLen < 0x1_0000 ==>
              Safe(box, maxLen) && forall k :: 0 <= k < |out| ==> out[k] == old(box.queue)[k].bytes
  {
    hide Outbox.Valid, Sound;
    Plain(box);
    out := [];
    while |out| < n && |out| < box.count
      invariant |out| <= Min(n, box.count) && unchanged(box)
      invariant Safe(box, maxLen) && maxLen < 0x1_0000 ==> forall k :: 0 <= k < |out| ==> out[k] == box.queue[k].bytes
    {
      var bytes := box.Payload(|out|);
      out := out + [bytes];
    }
    ghost var v := box.View();
    if Safe(box, maxLen) {
      SoundSizes(v);
      ReleasedSound(v, |out|);
    }
    box.Commit(n);
    Plain(box);
  }

  lemma SoundSizes(p: Pending)
    requires Sound(p)
    ensures |p.queue| == |p.places|
  {
  }

  function Filled(n: nat, b: Byte): (s: seq<Byte>)
    ensures |s| == n && forall i :: 0 <= i < n ==> s[i] == b
  {
    seq(n, _ => b)
  }

  /** The pending outputs after one more is offered: staged where there is a place for it. */
  function Offered(p: Pending, o: Output): Pending
    requires |o.bytes| <= |p.buf| && p.bufHead <= |p.buf| && Live(p.places) <= |p.buf|
  {
    var place := PlaceFor(p, |o.bytes|);
    if place.At? then Staged(p, place.off, o) else p
  }

  /** Four outputs, the oldest released after the second. */
  function FillScenario(l: U64): Pending {
    var a := Offered(Pending([], [], 0, 0, Zeros(100)), Output(l, Audit, Filled(50, 1)));
    var b := Offered(a, Output(l, Audit, Filled(50, 2)));
    Offered(Released(b, 1), Output(l, Audit, Filled(50, 3)))
  }

  lemma ExactFill(l: U64)
    ensures var c := FillScenario(l);
            && Sound(c) && |c.buf| == 100 && c.places == [Extent(50, 50), Extent(0, 50)]
            && c.bufHead == 50 && c.wrapAt == 1
            && |c.queue| == 2 && c.queue[0] == Output(l, Audit, Filled(50, 2))
  {
    hide Splice, Filled, Laid, Held;
    var p := Pending([], [], 0, 0, Zeros(100));
    var oa, ob, oc := Output(l, Audit, Filled(50, 1)), Output(l, Audit, Filled(50, 2)), Output(l, Audit, Filled(50, 3));
    EmptySound(p);
    StagedSound(p, oa);
    var a := Offered(p, oa);
    assert a == Staged(p, 0, oa) && a.places == [Extent(0, 50)] && a.queue == [oa];
    StagedSound(a, ob);
    var b := Offered(a, ob);
    assert b == Staged(a, 50, ob) && b.places == [Extent(0, 50), Extent(50, 50)] && b.queue == [oa, ob];
    ReleasedSound(b, 1);
    var r := Released(b, 1);
    assert r.places == [Extent(50, 50)] && r.queue == [ob];
    StagedSound(r, oc);
    assert FillScenario(l) == Staged(r, 0, oc);
  }

  lemma EmptySound(p: Pending)
    requires p.queue == [] && p.places == [] && p.wrapAt == 0 && p.bufHead == 0
    ensures Sound(p) && !AtBrim(p)
  {
  }

  /** Without that slack the promise fails: over 100 bytes, two payloads of 50, the first released and a third
      of 50 staged in its place, leave the buffer exactly full; the next output is still accepted, and the
      second payload no longer reads as it was staged. */
  lemma FullBufferLosesAPayload(l: U64)
    ensures var c := FillScenario(l);
            && Sound(c) && AtBrim(c) && |c.buf| == 100 && c.bufHead == 50 && Live(c.places) == 50
            && PlaceFor(c, 10) == At(50)
            && !Sound(Staged(c, 50, Output(l, Audit, Filled(10, 4))))
  {
    hide Laid;
    ExactFill(l);
    var c := FillScenario(l);
    var d := Staged(c, 50, Output(l, Audit, Filled(10, 4)));
    assert d.places[0] == Extent(50, 50) && d.queue[0] == c.queue[0];
    assert d.buf[50] == Filled(10, 4)[0] == 4;
    assert d.buf[50..100][0] == 4 && Filled(50, 2)[0] == 2;
    assert !Holds(d.buf, d.places[0].off, d.queue[0].bytes);
  }
}
