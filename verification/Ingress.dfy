/** From a byte stream to the partitions' inboxes: framing, routing, broadcast and back-pressure. */
module Ingress {
  import opened Bytes
  import opened Status

  const SCHEMA_ID := 1
  const SCHEMA_VERSION := 1
  const MSG_HEADER := 8
  const MAX_PAYLOAD := 496
  const BUFFER := 65536
  const INBOX_SLOTS := 4096

  /** One framed message. */
  datatype Message = Message(tmpl: U16, payload: seq<Byte>)

  predicate Frames(m: Message) {
    |m.payload| <= MAX_PAYLOAD
  }

  function Framed(m: Message): (s: seq<Byte>)
    requires Frames(m)
    ensures |s| == MSG_HEADER + |m.payload|
  {
    Le(2, |m.payload|) + Le(2, m.tmpl) + Le(2, SCHEMA_ID) + Le(2, SCHEMA_VERSION) + m.payload
  }

  ghost predicate AllFrame(ms: seq<Message>) {
    forall i :: 0 <= i < |ms| ==> Frames(ms[i])
  }

  /** The byte stream of a sequence of messages. */
  function Stream(ms: seq<Message>): seq<Byte>
    requires AllFrame(ms)
  {
    if ms == [] then [] else Framed(ms[0]) + Stream(ms[1..])
  }

  function Known(tmpl: nat): bool {
    1 <= tmpl <= 10
  }

  /** A day, a price, a reconciliation or an end of day goes to every partition. */
  function Broadcast(tmpl: nat): bool {
    tmpl == 1 || tmpl == 8 || tmpl == 9 || tmpl == 10
  }

  /** Where the owner's document is in the payload of a routed message. */
  function OwnerOffset(tmpl: nat): nat {
    if tmpl == 2 then 16 else if tmpl == 3 then 24 else 8
  }

  /** The payload is long enough to hold its owner. */
  predicate FullBlock(m: Message) {
    Known(m.tmpl) && !Broadcast(m.tmpl) ==> OwnerOffset(m.tmpl) + 8 <= |m.payload|
  }

  function Owner(m: Message): nat
    requires OwnerOffset(m.tmpl) + 8 <= |m.payload|
  {
    FromLe(m.payload[OwnerOffset(m.tmpl)..OwnerOffset(m.tmpl) + 8])
  }

  /** Which partition an owner belongs to. */
  type Router = nat -> nat

  /** Does partition `i` of `n` receive the message? */
  function Receives(route: Router, m: Message, i: nat, n: nat): bool {
    Known(m.tmpl) && (Broadcast(m.tmpl) || (FullBlock(m) && route(Owner(m)) == i < n))
  }

  /** The messages of a stream that partition `i` receives, in stream order. */
  function Routed(route: Router, ms: seq<Message>, i: nat, n: nat): seq<Message> {
    if ms == [] then []
    else
      var init := Routed(route, ms[..|ms| - 1], i, n);
      if Receives(route, ms[|ms| - 1], i, n) then init + [ms[|ms| - 1]] else init
  }

  // ---------------------------------------------------------------- one stream, one reading

  lemma FramedFields(m: Message, rest: seq<Byte>)
    requires Frames(m)
    ensures var s := Framed(m) + rest;
            && FromLe(s[0..2]) == |m.payload| && FromLe(s[2..4]) == m.tmpl && FromLe(s[4..6]) == SCHEMA_ID
            && FromLe(s[6..8]) == SCHEMA_VERSION && s[8..8 + |m.payload|] == m.payload && s[8 + |m.payload|..] == rest
  {
    Widths();
    LeRoundTrip(2, |m.payload|);
    LeRoundTrip(2, m.tmpl);
    LeRoundTrip(2, SCHEMA_ID);
    LeRoundTrip(2, SCHEMA_VERSION);
    hide Le, FromLe;
    var s := Framed(m) + rest;
    assert s[0..2] == Le(2, |m.payload|) && s[2..4] == Le(2, m.tmpl);
    assert s[4..6] == Le(2, SCHEMA_ID) && s[6..8] == Le(2, SCHEMA_VERSION);
  }

  /** Messages already taken from a stream are the first messages of that stream. */
  lemma {:induction false} TakenIsPrefix(taken: seq<Message>, left: seq<Byte>, ms: seq<Message>, more: seq<Byte>)
    requires AllFrame(taken) && AllFrame(ms) && Stream(taken) + left + more == Stream(ms)
    ensures taken <= ms && left + more == Stream(ms[|taken|..])
    decreases |taken|
  {
    if taken == [] {
      assert ms[0..] == ms;
    } else {
      var m, rest := taken[0], Stream(taken[1..]) + left + more;
      assert Stream(taken) + left + more == Framed(m) + rest;
      FramedFields(m, rest);
      assert ms != [];
      FramedFields(ms[0], Stream(ms[1..]));
      assert m == ms[0];
      TakenIsPrefix(taken[1..], left, ms[1..], more);
      assert ms[|taken|..] == ms[1..][|taken| - 1..];
    }
  }

  lemma {:induction false} StreamSnoc(ms: seq<Message>, m: Message)
    requires AllFrame(ms) && Frames(m)
    ensures AllFrame(ms + [m]) && Stream(ms + [m]) == Stream(ms) + Framed(m)
    decreases |ms|
  {
    hide Framed;
    var all := ms + [m];
    if ms == [] {
      assert all[1..] == [] && Stream([]) == [];
    } else {
      StreamSnoc(ms[1..], m);
      assert all[1..] == ms[1..] + [m];
      assert Framed(ms[0]) + (Stream(ms[1..]) + Framed(m)) == Framed(ms[0]) + Stream(ms[1..]) + Framed(m);
    }
  }

  lemma RoutedSnoc(route: Router, ms: seq<Message>, m: Message, i: nat, n: nat)
    ensures Routed(route, ms + [m], i, n)
         == if Receives(route, m, i, n) then Routed(route, ms, i, n) + [m] else Routed(route, ms, i, n)
  {
    assert (ms + [m])[..|ms|] == ms;
  }

  // ---------------------------------------------------------------- inboxes

  /** A bounded ring seen from the producer: what was published, and how much of it is gone. */
  datatype Inbox = Inbox(published: seq<Message>, taken: nat)

  predicate HasRoom(b: Inbox) {
    |b.published| - b.taken < INBOX_SLOTS
  }

  function Published(b: Inbox, m: Message): Inbox {
    b.(published := b.published + [m])
  }

  /** Every inbox holds exactly its messages of the stream taken so far, in order. */
  ghost predicate Delivered(route: Router, taken: seq<Message>, boxes: seq<Inbox>) {
    forall i :: 0 <= i < |boxes| ==>
      boxes[i].published == Routed(route, taken, i, |boxes|) && boxes[i].taken <= |boxes[i].published|
  }

  /** Publishing to exactly the receivers of a message delivers it. */
  lemma DeliversOne(route: Router, taken: seq<Message>, boxes: seq<Inbox>, m: Message, after: seq<Inbox>)
    requires Delivered(route, taken, boxes) && |after| == |boxes|
    requires forall i :: 0 <= i < |boxes| ==>
               after[i] == if Receives(route, m, i, |boxes|) then Published(boxes[i], m) else boxes[i]
    ensures Delivered(route, taken + [m], after)
  {
    forall i | 0 <= i < |boxes|
      ensures after[i].published == Routed(route, taken + [m], i, |boxes|)
    {
      RoutedSnoc(route, taken, m, i, |boxes|);
    }
  }

  // ---------------------------------------- what one message, and one piece of the stream, does

  /** The owner of the message at the front of the buffer, read at a fixed place whether or not the message reaches
      that far. */
  function OwnerRead(buffer: seq<Byte>, tmpl: nat): nat
    requires |buffer| == BUFFER
  {
    FromLe(buffer[MSG_HEADER + OwnerOffset(tmpl)..MSG_HEADER + OwnerOffset(tmpl) + 8])
  }

  /** The inboxes after a message was offered to them, and the answer. */
  datatype Sent = Sent(boxes: seq<Inbox>, st: Err)

  function Dispatched(route: Router, boxes: seq<Inbox>, buffer: seq<Byte>, m: Message): (r: Sent)
    requires |buffer| == BUFFER
    ensures |r.boxes| == |boxes| && (r.st != Ok ==> r.boxes == boxes)
  {
    if !Known(m.tmpl) then Sent(boxes, UnknownTemplate)
    else if Broadcast(m.tmpl) then
      if forall i :: 0 <= i < |boxes| ==> HasRoom(boxes[i]) then
        Sent(seq(|boxes|, i requires 0 <= i < |boxes| => Published(boxes[i], m)), Ok)
      else Sent(boxes, WouldBlock)
    else
      var p := route(OwnerRead(buffer, m.tmpl));
      if p >= |boxes| then Sent(boxes, OutOfRange)
      else if !HasRoom(boxes[p]) then Sent(boxes, WouldBlock)
      else Sent(boxes[p := Published(boxes[p], m)], Ok)
  }

  /** A full block goes to exactly its receivers. */
  lemma FullGoesRight(route: Router, boxes: seq<Inbox>, buffer: seq<Byte>, m: Message)
    requires |buffer| == BUFFER && Frames(m) && FullBlock(m)
    requires buffer[MSG_HEADER..MSG_HEADER + |m.payload|] == m.payload
    ensures var r := Dispatched(route, boxes, buffer, m);
            r.st != WouldBlock ==>
              forall i :: 0 <= i < |boxes| ==>
                r.boxes[i] == if Receives(route, m, i, |boxes|) then Published(boxes[i], m) else boxes[i]
  {
    if Known(m.tmpl) && !Broadcast(m.tmpl) {
      OwnerInBuffer(buffer, m);
    }
  }

  /** What the pipeline holds: its inboxes, and the front of its buffer that is in use. */
  datatype Intake = Intake(boxes: seq<Inbox>, buffer: seq<Byte>, buffered: nat)

  datatype Parsing = Parsing(after: Intake, st: Err)

  /** The first `total` bytes are done with: those behind them slide to the front, over them and nothing else. */
  function Slid(buffer: seq<Byte>, buffered: nat, total: nat): (r: seq<Byte>)
    requires |buffer| == BUFFER && total <= buffered <= BUFFER
    ensures |r| == BUFFER
  {
    Splice(buffer, 0, buffer[total..buffered])
  }

  function LengthAt(buffer: seq<Byte>): (n: nat)
    requires |buffer| >= MSG_HEADER
    ensures n < 0x1_0000
  {
    FieldSize(buffer);
    FromLe(buffer[0..2])
  }

  /** The message at the front of the buffer. */
  function MessageAt(buffer: seq<Byte>): (m: Message)
    requires |buffer| == BUFFER && LengthAt(buffer) <= MAX_PAYLOAD
    ensures Frames(m) && |m.payload| == LengthAt(buffer)
  {
    FieldSize(buffer);
    Message(FromLe(buffer[2..4]), buffer[MSG_HEADER..MSG_HEADER + LengthAt(buffer)])
  }

  /** Messages taken off the front of the buffer until one is incomplete, badly framed, or has no room to go; `st` is
      the last refusal met on the way. */
  function Parsed(route: Router, p: Intake, st: Err): (r: Parsing)
    requires |p.buffer| == BUFFER && p.buffered <= BUFFER
    decreases p.buffered
  {
    if p.buffered < MSG_HEADER then Parsing(p, st)
    else if FromLe(p.buffer[4..6]) != SCHEMA_ID || FromLe(p.buffer[6..8]) != SCHEMA_VERSION then
      Parsing(p.(buffered := 0), UnknownTemplate)
    else if LengthAt(p.buffer) > MAX_PAYLOAD then Parsing(p.(buffered := 0), ShortPayload)
    else
      var total := MSG_HEADER + LengthAt(p.buffer);
      if p.buffered < total then Parsing(p, st)
      else
        var sent := Dispatched(route, p.boxes, p.buffer, MessageAt(p.buffer));
        if sent.st == WouldBlock then Parsing(p, WouldBlock)
        else
          Parsed(route, Intake(sent.boxes, Slid(p.buffer, p.buffered, total), p.buffered - total),
                 if sent.st != Ok then sent.st else st)
  }

  /** Where parsing stops: too little is left, or the framing is bad. */
  lemma ParsedStops(route: Router, p: Intake, st: Err)
    requires |p.buffer| == BUFFER && p.buffered <= BUFFER
    ensures p.buffered < MSG_HEADER ==> Parsed(route, p, st) == Parsing(p, st)
    ensures p.buffered >= MSG_HEADER ==>
              if FromLe(p.buffer[4..6]) != SCHEMA_ID || FromLe(p.buffer[6..8]) != SCHEMA_VERSION then
                Parsed(route, p, st) == Parsing(p.(buffered := 0), UnknownTemplate)
              else if FromLe(p.buffer[0..2]) > MAX_PAYLOAD then
                Parsed(route, p, st) == Parsing(p.(buffered := 0), ShortPayload)
              else p.buffered < MSG_HEADER + FromLe(p.buffer[0..2]) ==> Parsed(route, p, st) == Parsing(p, st)
  {
    hide FromLe, Dispatched, Slid;
  }

  /** And where it goes on: with a whole message at the front. */
  lemma ParsedGoesOn(route: Router, p: Intake, st: Err, m: Message)
    requires |p.buffer| == BUFFER && MSG_HEADER + |m.payload| <= p.buffered <= BUFFER && Frames(m)
    requires FromLe(p.buffer[4..6]) == SCHEMA_ID && FromLe(p.buffer[6..8]) == SCHEMA_VERSION
    requires FromLe(p.buffer[0..2]) == |m.payload| && FromLe(p.buffer[2..4]) == m.tmpl
    requires p.buffer[MSG_HEADER..MSG_HEADER + |m.payload|] == m.payload
    ensures var sent, total := Dispatched(route, p.boxes, p.buffer, m), MSG_HEADER + |m.payload|;
            Parsed(route, p, st)
            == if sent.st == WouldBlock then Parsing(p, WouldBlock)
               else Parsed(route, Intake(sent.boxes, Slid(p.buffer, p.buffered, total), p.buffered - total),
                           if sent.st != Ok then sent.st else st)
  {
    hide FromLe, Dispatched, Slid;
    assert MessageAt(p.buffer) == m;
  }

  /** A piece of the stream copied behind what is already there, then parsed. */
  function Fed(route: Router, p: Intake, chunk: seq<Byte>): Parsing
    requires |p.buffer| == BUFFER && p.buffered + |chunk| <= BUFFER
  {
    Parsed(route, Intake(p.boxes, Splice(p.buffer, p.buffered, chunk), p.buffered + |chunk|), Ok)
  }

  class IngressPipeline {
    const route: Router
    var boxes: seq<Inbox>
    var buffer: seq<Byte>
    var buffered: nat
    /** The messages taken off the stream so far; every one of them full, as the theorems require. */
    ghost var taken: seq<Message>
    /** Every byte accepted so far, unless bad framing made the pipeline discard what it held. */
    ghost var received: seq<Byte>

    ghost predicate Valid()
      reads this
    {
      && |buffer| == BUFFER && buffered <= BUFFER
      && AllFrame(taken) && received == Stream(taken) + buffer[..buffered]
    }

    constructor (route: Router, n: nat)
      ensures Valid() && received == [] && taken == [] && |boxes| == n && this.route == route
      ensures Delivered(route, taken, boxes)
    {
      this.route := route;
      boxes := seq(n, _ => Inbox([], 0));
      buffer := Zeros(BUFFER);
      buffered := 0;
      taken, received := [], [];
    }

    /** A consumer takes the oldest message of its inbox. */
    method Drain(i: nat)
      requires Valid() && i < |boxes| && boxes[i].taken < |boxes[i].published|
      modifies `boxes
      ensures Valid() && |boxes| == old(|boxes|)
      ensures Delivered(route, taken, old(boxes)) ==> Delivered(route, taken, boxes)
    {
      boxes := boxes[i := boxes[i].(taken := boxes[i].taken + 1)];
    }

    /** To every partition, or to none. */
    method BroadcastAll(m: Message) returns (st: Err)
      modifies `boxes
      ensures |boxes| == |old(boxes)| && (st == Ok || st == WouldBlock)
      ensures st == Ok <==> forall i :: 0 <= i < |boxes| ==> HasRoom(old(boxes)[i])
      ensures forall i :: 0 <= i < |boxes| ==>
                boxes[i] == if st == Ok then Published(old(boxes)[i], m) else old(boxes)[i]
    {
      var i := 0;
      while i < |boxes|
        invariant 0 <= i <= |boxes| && boxes == old(boxes)
        invariant forall j :: 0 <= j < i ==> HasRoom(boxes[j])
      {
        if !HasRoom(boxes[i]) {
          return WouldBlock;
        }
        i := i + 1;
      }
      i := 0;
      while i < |boxes|
        invariant 0 <= i <= |boxes| == |old(boxes)|
        invariant forall j :: 0 <= j < |boxes| ==>
                    boxes[j] == if j < i then Published(old(boxes)[j], m) else old(boxes)[j]
      {
        boxes := boxes[i := Published(boxes[i], m)];
        i := i + 1;
      }
      return Ok;
    }

    /** The message at the front of the buffer goes where it belongs. Its owner is read from the buffer at a fixed
        place, whether or not the message reaches that far. */
    method RouteAndDispatch(m: Message) returns (st: Err)
      requires |buffer| == BUFFER
      modifies `boxes
      ensures Sent(boxes, st) == Dispatched(route, old(boxes), buffer, m)
    {
      if !Known(m.tmpl) {
        return UnknownTemplate;
      }
      if Broadcast(m.tmpl) {
        st := BroadcastAll(m);
        return;
      }
      var at := MSG_HEADER + OwnerOffset(m.tmpl);
      var p := route(FromLe(buffer[at..at + 8]));
      if p >= |boxes| {
        return OutOfRange;
      }
      if !HasRoom(boxes[p]) {
        return WouldBlock;
      }
      boxes := boxes[p := Published(boxes[p], m)];
      return Ok;
    }

    /** The message at the front of the buffer is done with: the bytes behind it slide down. */
    method Slide(m: Message)
      requires Valid() && Frames(m) && MSG_HEADER + |m.payload| <= buffered
      requires buffer[..MSG_HEADER + |m.payload|] == Framed(m)
      modifies `buffer, `buffered, `taken
      ensures Valid() && taken == old(taken) + [m] && received == old(received)
      ensures buffered == old(buffered) - MSG_HEADER - |m.payload|
      ensures buffer == Slid(old(buffer), old(buffered), MSG_HEADER + |m.payload|)
    {
      hide Framed, Splice;
      var total := MSG_HEADER + |m.payload|;
      ghost var was := buffer[..buffered];
      StreamSnoc(taken, m);
      assert was == Framed(m) + buffer[total..buffered];
      SplicePlaces(buffer, 0, buffer[total..buffered]);
      buffer := Splice(buffer, 0, buffer[total..buffered]);
      buffered := buffered - total;
      taken := taken + [m];
      assert buffer[..buffered] == was[total..];
    }

    /** One message: delivered and taken, or left where it is. */
    method TakeOne(m: Message) returns (st: Err)
      requires Valid() && Frames(m) && MSG_HEADER + |m.payload| <= buffered
      requires buffer[..MSG_HEADER + |m.payload|] == Framed(m)
      requires buffer[MSG_HEADER..MSG_HEADER + |m.payload|] == m.payload
      modifies `boxes, `buffer, `buffered, `taken
      ensures Valid() && |boxes| == |old(boxes)| && received == old(received)
      ensures Sent(boxes, st) == Dispatched(route, old(boxes), old(buffer), m)
      ensures st == WouldBlock ==> taken == old(taken) && buffer == old(buffer) && buffered == old(buffered)
      ensures st != WouldBlock ==> taken == old(taken) + [m] && buffered == old(buffered) - MSG_HEADER - |m.payload|
      ensures st != WouldBlock ==> buffer == Slid(old(buffer), old(buffered), MSG_HEADER + |m.payload|)
      ensures st != WouldBlock && Delivered(route, old(taken), old(boxes)) && FullBlock(m) ==>
                Delivered(route, taken, boxes)
    {
      hide Delivered, Framed, Receives, Dispatched, Slid;
      st := RouteAndDispatch(m);
      if st == WouldBlock {
        return;
      }
      if Delivered(route, taken, old(boxes)) && FullBlock(m) {
        FullGoesRight(route, old(boxes), buffer, m);
        DeliversOne(route, taken, old(boxes), m, boxes);
      }
      Slide(m);
    }

    /** Takes whole messages off the front of the buffer until one is incomplete, badly framed, or has no room to go. */
    method Parse() returns (st: Err, ghost kept: bool)
      requires Valid()
      modifies `boxes, `buffer, `buffered, `taken, `received
      ensures Valid() && |boxes| == |old(boxes)| && old(taken) <= taken
      ensures Parsing(Intake(boxes, buffer, buffered), st) == Parsed(route, old(Intake(boxes, buffer, buffered)), Ok)
      ensures Delivered(route, old(taken), old(boxes)) && AllFull(taken) ==> Delivered(route, taken, boxes)
      ensures kept ==> received == old(received)
      ensures !kept ==> BadlyFramed(old(received))
      ensures kept && st != WouldBlock ==> Incomplete(buffer[..buffered])
    {
      hide Delivered, Framed, AllFull, FullBlock, Dispatched, Slid, BadlyFramed, Parsed;
      st, kept := Ok, true;
      while buffered >= MSG_HEADER
        invariant Valid() && |boxes| == |old(boxes)| && old(taken) <= taken && received == old(received)
        invariant st != WouldBlock
        invariant Parsed(route, Intake(boxes, buffer, buffered), st)
               == Parsed(route, old(Intake(boxes, buffer, buffered)), Ok)
        invariant Delivered(route, old(taken), old(boxes)) && AllFull(taken) ==> Delivered(route, taken, boxes)
        decreases buffered
      {
        var len, tmpl := FromLe(buffer[0..2]), FromLe(buffer[2..4]);
        var schema, version := FromLe(buffer[4..6]), FromLe(buffer[6..8]);
        BadHeader(received, taken, buffer, buffered);
        ParsedStops(route, Intake(boxes, buffer, buffered), st);
        if schema != SCHEMA_ID || version != SCHEMA_VERSION {
          buffered, received := 0, Stream(taken);
          return UnknownTemplate, false;
        }
        if len > MAX_PAYLOAD {
          buffered, received := 0, Stream(taken);
          return ShortPayload, false;
        }
        if buffered < MSG_HEADER + len {
          return st, true;
        }
        FieldSize(buffer);
        var m := Message(tmpl, buffer[MSG_HEADER..MSG_HEADER + len]);
        HeaderIsFramed(buffer, m);
        AllFullSnoc(taken, m);
        ParsedGoesOn(route, Intake(boxes, buffer, buffered), st, m);
        var one := TakeOne(m);
        if one == WouldBlock {
          return WouldBlock, true;
        }
        if one != Ok {
          st := one;
        }
      }
      ParsedStops(route, Intake(boxes, buffer, buffered), st);
    }

    /** Bytes from the network, in pieces of any size that fit. */
    method Feed(chunk: seq<Byte>) returns (st: Err, ghost accepted: bool, ghost kept: bool)
      requires Valid()
      modifies this
      ensures Valid() && |boxes| == |old(boxes)| && old(taken) <= taken
      ensures accepted == (old(buffered) + |chunk| <= BUFFER)
      ensures !accepted ==>
                kept && st == OutOfRange && received == old(received) && taken == old(taken) && boxes == old(boxes)
      ensures !accepted ==> buffer == old(buffer) && buffered == old(buffered)
      ensures accepted && kept ==> received == old(received) + chunk
      ensures !kept ==> BadlyFramed(old(received) + chunk)
      ensures Delivered(route, old(taken), old(boxes)) && AllFull(taken) ==> Delivered(route, taken, boxes)
      ensures accepted && kept && st != WouldBlock ==> Incomplete(buffer[..buffered])
      ensures accepted ==>
                Parsing(Intake(boxes, buffer, buffered), st) == Fed(route, old(Intake(boxes, buffer, buffered)), chunk)
    {
      hide Delivered, Splice;
      if buffered + |chunk| > BUFFER {
        return OutOfRange, false, true;
      }
      ghost var was := buffer[..buffered];
      SplicePlaces(buffer, buffered, chunk);
      SpliceKeeps(buffer, buffered, chunk, 0, buffered);
      buffer := Splice(buffer, buffered, chunk);
      buffered := buffered + |chunk|;
      assert buffer[..buffered] == was + chunk;
      received := received + chunk;
      accepted := true;
      st, kept := Parse();
    }

    /** The end of a stream: bytes left over are a message cut short. */
    method Finish() returns (st: Err)
      requires Valid()
      modifies `buffered, `received
      ensures Valid() && buffered == 0 && st == if old(buffered) == 0 then Ok else ShortPayload
      ensures received == Stream(taken)
    {
      if buffered == 0 {
        return Ok;
      }
      buffered := 0;
      received := Stream(taken);
      return ShortPayload;
    }
  }

  lemma OwnerInBuffer(buffer: seq<Byte>, m: Message)
    requires MSG_HEADER + |m.payload| <= |buffer| && OwnerOffset(m.tmpl) + 8 <= |m.payload|
    requires buffer[MSG_HEADER..MSG_HEADER + |m.payload|] == m.payload
    ensures var at := MSG_HEADER + OwnerOffset(m.tmpl);
            FromLe(buffer[at..at + 8]) == Owner(m)
  {
    SliceSlice(buffer, MSG_HEADER, MSG_HEADER + |m.payload|, OwnerOffset(m.tmpl), OwnerOffset(m.tmpl) + 8);
  }

  ghost predicate AllFull(ms: seq<Message>) {
    forall i :: 0 <= i < |ms| ==> FullBlock(ms[i])
  }

  lemma AllFullSnoc(ms: seq<Message>, m: Message)
    ensures AllFull(ms + [m]) <==> AllFull(ms) && FullBlock(m)
  {
    var all := ms + [m];
    assert all[|ms|] == m && forall i :: 0 <= i < |ms| ==> all[i] == ms[i];
  }

  /** The bytes of the front of the buffer are not one whole message. */
  predicate Incomplete(left: seq<Byte>) {
    |left| < MSG_HEADER || |left| < MSG_HEADER + FromLe(left[0..2])
  }

  /** No continuation makes these bytes the stream of well-framed messages. */
  ghost predicate BadlyFramed(bytes: seq<Byte>) {
    forall ms, more :: AllFrame(ms) ==> bytes + more != Stream(ms)
  }

  lemma FieldSize(b: seq<Byte>)
    requires |b| >= 8
    ensures FromLe(b[2..4]) < 0x1_0000 && FromLe(b[0..2]) < 0x1_0000
  {
    Widths();
    FromLeBound(b[2..4]);
    FromLeBound(b[0..2]);
  }

  /** Bytes behind a good header are that message as it was framed. */
  lemma HeaderIsFramed(b: seq<Byte>, m: Message)
    requires |b| >= MSG_HEADER + |m.payload| && Frames(m) && b[MSG_HEADER..MSG_HEADER + |m.payload|] == m.payload
    requires FromLe(b[0..2]) == |m.payload| && FromLe(b[2..4]) == m.tmpl
    requires FromLe(b[4..6]) == SCHEMA_ID && FromLe(b[6..8]) == SCHEMA_VERSION
    ensures b[..MSG_HEADER + |m.payload|] == Framed(m)
  {
    FromLeRoundTrip(b[0..2]);
    FromLeRoundTrip(b[2..4]);
    FromLeRoundTrip(b[4..6]);
    FromLeRoundTrip(b[6..8]);
    hide Le, FromLe;
    SliceJoin(b, 0, 2, 4);
    SliceJoin(b, 0, 4, 6);
    SliceJoin(b, 0, 6, 8);
    SliceJoin(b, 0, 8, MSG_HEADER + |m.payload|);
  }

  /** A bad header at the front of what is left cannot come from well-framed messages. */
  lemma BadHeader(received: seq<Byte>, taken: seq<Message>, buffer: seq<Byte>, buffered: nat)
    requires MSG_HEADER <= buffered <= |buffer| && AllFrame(taken) && received == Stream(taken) + buffer[..buffered]
    ensures || BadlyFramed(received)
            || (&& FromLe(buffer[4..6]) == SCHEMA_ID && FromLe(buffer[6..8]) == SCHEMA_VERSION
                && FromLe(buffer[0..2]) <= MAX_PAYLOAD)
    ensures FromLe(buffer[0..2]) == FromLe(buffer[..buffered][0..2])
  {
    hide Framed;
    var left := buffer[..buffered];
    assert left[0..2] == buffer[0..2] && left[4..6] == buffer[4..6] && left[6..8] == buffer[6..8];
    forall ms, more | AllFrame(ms) && received + more == Stream(ms)
      ensures FromLe(left[4..6]) == SCHEMA_ID && FromLe(left[6..8]) == SCHEMA_VERSION
              && FromLe(left[0..2]) <= MAX_PAYLOAD
    {
      TakenIsPrefix(taken, left, ms, more);
      FrontOf(left, more, ms[|taken|..]);
    }
  }

  /** The front of a stream is the header of its first message. */
  lemma FrontOf(left: seq<Byte>, more: seq<Byte>, ms: seq<Message>)
    requires AllFrame(ms) && left + more == Stream(ms) && |left| >= MSG_HEADER
    ensures ms != [] && FromLe(left[0..2]) == |ms[0].payload| <= MAX_PAYLOAD
    ensures FromLe(left[4..6]) == SCHEMA_ID && FromLe(left[6..8]) == SCHEMA_VERSION
  {
    assert ms != [];
    FramedFields(ms[0], Stream(ms[1..]));
    hide FromLe, Framed;
    var s := Framed(ms[0]) + Stream(ms[1..]);
    assert s == left + more;
    assert s[0..2] == left[0..2] && s[4..6] == left[4..6] && s[6..8] == left[6..8];
  }

  /** Nothing whole is left of a stream received to its end: everything was taken. */
  lemma NothingLeft(taken: seq<Message>, left: seq<Byte>, ms: seq<Message>)
    requires AllFrame(taken) && AllFrame(ms) && Stream(taken) + left == Stream(ms) && Incomplete(left)
    ensures taken == ms
  {
    hide Framed;
    assert Stream(taken) + left + [] == Stream(ms);
    TakenIsPrefix(taken, left, ms, []);
    var rest := ms[|taken|..];
    assert left + [] == left == Stream(rest);
    if rest != [] {
      assert |left| >= MSG_HEADER;
      FrontOf(left, [], rest);
    }
  }

  // ---------------------------------------------------------------- exactly once

  datatype Move = Bytes(n: nat) | Drained(i: nat)

  function Min(a: nat, b: nat): nat {
    if a < b then a else b
  }

  /** Whatever pieces a well-formed stream of full blocks comes in, whatever the consumers drain in between and
      however often a feed is retried, with or without new bytes: each inbox has received exactly its messages of a
      prefix of the stream, in order, nothing lost and nothing twice; and once the stream is all in and the last feed
      did not stall, it is delivered whole. A piece that does not fit the buffer is refused and comes again. */
  method ExactlyOnce(pipe: IngressPipeline, ms: seq<Message>, moves: seq<Move>) returns (fed: nat, stalled: bool)
    requires pipe.Valid() && pipe.received == [] && pipe.taken == [] && Delivered(pipe.route, [], pipe.boxes)
    requires AllFrame(ms) && AllFull(ms)
    modifies pipe
    ensures pipe.Valid() && fed <= |Stream(ms)| && pipe.received == Stream(ms)[..fed]
    ensures pipe.taken <= ms && Delivered(pipe.route, pipe.taken, pipe.boxes)
    ensures fed == |Stream(ms)| && !stalled ==> pipe.taken == ms
  {
    hide Delivered, Framed, Stream, AllFull;
    var stream := Stream(ms);
    fed, stalled := 0, true;
    var i := 0;
    while i < |moves|
      invariant 0 <= i <= |moves| && pipe.Valid() && fed <= |stream| && pipe.received == stream[..fed]
      invariant pipe.taken <= ms && Delivered(pipe.route, pipe.taken, pipe.boxes)
      invariant !stalled ==> Incomplete(pipe.buffer[..pipe.buffered])
    {
      match moves[i] {
        case Bytes(n) =>
          var to := Min(fed + n, |stream|);
          var st;
          ghost var accepted, kept;
          ghost var ok := stream[..fed] + stream[fed..to];
          assert ok == stream[..to] && ok + stream[to..] == stream;
          var before := pipe.buffered;
          st, accepted, kept := pipe.Feed(stream[fed..to]);
          if before + (to - fed) <= BUFFER {
            assert kept;
            fed, stalled := to, st == WouldBlock;
          }
          Progress(pipe.taken, pipe.buffer[..pipe.buffered], ms, stream[fed..]);
        case Drained(k) =>
          if k < |pipe.boxes| && pipe.boxes[k].taken < |pipe.boxes[k].published| {
            pipe.Drain(k);
          }
      }
      i := i + 1;
    }
    if fed == |stream| && !stalled {
      NothingLeft(pipe.taken, pipe.buffer[..pipe.buffered], ms);
    }
  }

  lemma Progress(taken: seq<Message>, left: seq<Byte>, ms: seq<Message>, more: seq<Byte>)
    requires AllFrame(taken) && AllFrame(ms) && AllFull(ms) && Stream(taken) + left + more == Stream(ms)
    ensures taken <= ms && AllFull(taken)
  {
    TakenIsPrefix(taken, left, ms, more);
  }

  // ---------------------------------------------------------------- short blocks

  /** The message `m` at the front of a buffer. */
  ghost predicate InFront(buffer: seq<Byte>, m: Message) {
    |buffer| == BUFFER && Holds(buffer, MSG_HEADER, m.payload)
  }

  /** Where a routed message goes is its own affair, whatever else is in the buffer, exactly when it is long enough to
      hold its owner. */
  lemma OwnerIsItsOwn(m: Message)
    requires Frames(m) && Known(m.tmpl) && !Broadcast(m.tmpl)
    ensures (forall b, c :: InFront(b, m) && InFront(c, m) ==> OwnerRead(b, m.tmpl) == OwnerRead(c, m.tmpl))
        <==> FullBlock(m)
  {
    if FullBlock(m) {
      forall b, c | InFront(b, m) && InFront(c, m)
        ensures OwnerRead(b, m.tmpl) == OwnerRead(c, m.tmpl)
      {
        OwnerInBuffer(b, m);
        OwnerInBuffer(c, m);
      }
    } else {
      var at := MSG_HEADER + OwnerOffset(m.tmpl);
      var b := Splice(Zeros(BUFFER), MSG_HEADER, m.payload);
      var c := b[at + 7 := 1];
      assert InFront(b, m) && InFront(c, m);
      assert b[at..at + 8][7] == 0 && c[at..at + 8][7] == 1;
      FromLeRoundTrip(b[at..at + 8]);
      FromLeRoundTrip(c[at..at + 8]);
    }
  }

  const SHORT := Message(5, [])

  /** A block just long enough for its owner, `doc`. */
  function OwnedBy(doc: U64): (m: Message)
    ensures m.tmpl == 5 && |m.payload| == 16 && Owner(m) == doc
  {
    Widths();
    LeRoundTrip(8, doc);
    var payload := Zeros(8) + Le(8, doc);
    assert payload[8..16] == Le(8, doc);
    Message(5, payload)
  }

  /** A whole message at the front of the buffer is taken, and what is behind it slides over it and nothing else. */
  lemma TakesOff(route: Router, p: Intake, m: Message, rest: seq<Byte>)
    requires |p.buffer| == BUFFER && Frames(m) && p.buffered == MSG_HEADER + |m.payload| + |rest| <= BUFFER
    requires p.buffer[..p.buffered] == Framed(m) + rest
    requires Dispatched(route, p.boxes, p.buffer, m).st == Ok
    ensures var q := Slid(p.buffer, p.buffered, MSG_HEADER + |m.payload|);
            && q[..|rest|] == rest && q[|rest|..] == p.buffer[|rest|..]
            && Parsed(route, p, Ok)
               == Parsed(route, Intake(Dispatched(route, p.boxes, p.buffer, m).boxes, q, |rest|), Ok)
  {
    FramedFields(m, rest);
    FrontFields(p.buffer, p.buffered, Framed(m) + rest, |m.payload|);
    hide FromLe, Framed, Dispatched, Parsed;
    ParsedGoesOn(route, p, Ok, m);
    SlidFields(p.buffer, p.buffered, MSG_HEADER + |m.payload|);
  }

  lemma FrontFields(b: seq<Byte>, n: nat, s: seq<Byte>, len: nat)
    requires n <= |b| && b[..n] == s && MSG_HEADER + len <= n
    ensures b[0..2] == s[0..2] && b[2..4] == s[2..4] && b[4..6] == s[4..6] && b[6..8] == s[6..8]
    ensures b[MSG_HEADER..MSG_HEADER + len] == s[MSG_HEADER..MSG_HEADER + len]
    ensures b[MSG_HEADER + len..n] == s[MSG_HEADER + len..]
  {
  }

  lemma SlidFields(b: seq<Byte>, n: nat, total: nat)
    requires |b| == BUFFER && total <= n <= BUFFER
    ensures Slid(b, n, total)[..n - total] == b[total..n] && Slid(b, n, total)[n - total..] == b[n - total..]
  {
  }

  /** So a message cut short of its owner strays: fed to a new pipeline behind a full message, it goes where that one
      went, wherever that was. */
  lemma ShortBlockStrays(route: Router, n: nat, doc: U64)
    requires route(doc) < n
    ensures var start := Intake(seq(n, _ => Inbox([], 0)), Zeros(BUFFER), 0);
            var r := Fed(route, start, Framed(OwnedBy(doc)) + Framed(SHORT));
            && !FullBlock(SHORT) && r.st == Ok && r.after.buffered == 0 && |r.after.boxes| == n
            && forall i :: 0 <= i < n ==>
                 r.after.boxes[i].published == if i == route(doc) then [OwnedBy(doc), SHORT] else []
  {
    hide Framed, Parsed, Splice, Slid, FromLe;
    var m, p := OwnedBy(doc), route(doc);
    var chunk, boxes := Framed(m) + Framed(SHORT), seq(n, _ => Inbox([], 0));
    var b := Splice(Zeros(BUFFER), 0, chunk);
    assert b[..32] == chunk;
    FramedFields(m, Framed(SHORT));
    FrontFields(b, 32, chunk, 16);
    OwnerInBuffer(b, m);
    var boxes' := boxes[p := Published(boxes[p], m)];
    assert Dispatched(route, boxes, b, m) == Sent(boxes', Ok);
    TakesOff(route, Intake(boxes, b, 32), m, Framed(SHORT));
    var c := Slid(b, 32, 24);
    assert c[16..24] == c[8..][8..16] == b[8..][8..16] == b[16..24];
    assert Dispatched(route, boxes', c, SHORT) == Sent(boxes'[p := Published(boxes'[p], SHORT)], Ok);
    assert Framed(SHORT) + [] == Framed(SHORT);
    TakesOff(route, Intake(boxes', c, 8), SHORT, []);
    ParsedStops(route, Intake(boxes'[p := Published(boxes'[p], SHORT)], Slid(c, 8, 8), 0), Ok);
  }
}
