/** The ring of groups handed to the device and not yet known durable. */
module InflightGroups {
  import opened Bytes

  const MAX_INFLIGHT := 32

  datatype InflightGroup = InflightGroup(token: U64, bufIdx: nat, len: nat, completed: bool, ok: bool)

  datatype Slot = Free | InUse(group: InflightGroup)

  /** What a completion does to one group: mark it, and record whether the write was whole. */
  function Marked(g: InflightGroup, token: U64, ok: bool): InflightGroup {
    if g.token == token then g.(completed := true, ok := ok) else g
  }

  function MarkAll(gs: seq<InflightGroup>, token: U64, ok: bool): (r: seq<InflightGroup>)
    ensures |r| == |gs| && forall i :: 0 <= i < |gs| ==> r[i] == Marked(gs[i], token, ok)
  {
    seq(|gs|, i requires 0 <= i < |gs| => Marked(gs[i], token, ok))
  }

  ghost predicate DistinctTokens(gs: seq<InflightGroup>) {
    forall i, j :: 0 <= i < j < |gs| ==> gs[i].token != gs[j].token
  }

  /** Slot of the `i`-th oldest group. */
  function Wrap(head: nat, i: nat): (s: nat)
    requires head < MAX_INFLIGHT && i <= MAX_INFLIGHT
    ensures s < MAX_INFLIGHT
  {
    if head + i < MAX_INFLIGHT then head + i else head + i - MAX_INFLIGHT
  }

  class InflightRing {
    var slots: seq<Slot>
    var head: nat
    var tail: nat
    var count: nat
    ghost var fifo: seq<InflightGroup>

    ghost predicate Valid()
      reads this
    {
      && |slots| == MAX_INFLIGHT && head < MAX_INFLIGHT && count <= MAX_INFLIGHT && tail == Wrap(head, count)
      && |fifo| == count
      && (forall i :: 0 <= i < count ==> slots[Wrap(head, i)] == InUse(fifo[i]))
      && (forall i :: count <= i < MAX_INFLIGHT ==> slots[Wrap(head, i)] == Free)
    }

    constructor ()
      ensures Valid() && fifo == []
    {
      slots := seq(MAX_INFLIGHT, _ => Free);
      head, tail, count, fifo := 0, 0, 0, [];
    }

    method Push(g: InflightGroup)
      requires Valid() && count < MAX_INFLIGHT
      modifies this
      ensures Valid() && fifo == old(fifo) + [g]
    {
      slots := slots[tail := InUse(g)];
      tail := (tail + 1) % MAX_INFLIGHT;
      count := count + 1;
      fifo := fifo + [g];
    }

    method Oldest() returns (g: InflightGroup)
      requires Valid() && count > 0
      ensures g == fifo[0]
    {
      assert Wrap(head, 0) == head;
      g := slots[head].group;
    }

    method Pop()
      requires Valid() && count > 0
      modifies this
      ensures Valid() && fifo == old(fifo)[1..]
    {
      assert Wrap(head, 0) == head;
      slots := slots[head := Free];
      head := (head + 1) % MAX_INFLIGHT;
      count := count - 1;
      fifo := fifo[1..];
      assert forall i :: 0 <= i < MAX_INFLIGHT - 1 ==> Wrap(head, i) == Wrap(old(head), i + 1);
    }

    /** The scan of all slots for the group a completion names; a token in no slot is ignored. */
    method Mark(token: U64, ok: bool) returns (found: bool)
      requires Valid() && DistinctTokens(fifo)
      modifies this
      ensures Valid() && fifo == MarkAll(old(fifo), token, ok)
      ensures found <==> exists i :: 0 <= i < |fifo| && fifo[i].token == token
    {
      var j := 0;
      while j < MAX_INFLIGHT
        invariant 0 <= j <= MAX_INFLIGHT && unchanged(this)
        invariant forall i :: 0 <= i < count && Wrap(head, i) < j ==> fifo[i].token != token
      {
        if slots[j].InUse? && slots[j].group.token == token {
          ghost var i := if j >= head then j - head else j + MAX_INFLIGHT - head;
          assert Wrap(head, i) == j;
          assert i < count;
          slots := slots[j := InUse(slots[j].group.(completed := true, ok := ok))];
          fifo := fifo[i := Marked(fifo[i], token, ok)];
          assert fifo[i].token == token;
          return true;
        }
        j := j + 1;
      }
      return false;
    }
  }
}
