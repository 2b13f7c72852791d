/** A bounded ring between one producer and one consumer, each with a stale copy of the other's cursor. */
module SpscRings {
  /** The slot of the `i`-th item: what is left of the count after whole turns of the ring. */
  function Slot(i: nat, cap: nat): (s: nat)
    requires cap > 0
    ensures s < cap
  {
    if i < cap then i else Slot(i - cap, cap)
  }

  /** Fewer than `cap` items apart, slots differ. */
  lemma {:induction false} SlotsDiffer(i: nat, j: nat, cap: nat)
    requires cap > 0 && i < j < i + cap
    ensures Slot(i, cap) != Slot(j, cap)
  {
    if i >= cap {
      SlotsDiffer(i - cap, j - cap, cap);
    } else if j >= cap {
      assert Slot(j, cap) == j - cap;
    }
  }

  /** What one thread may do next, one atomic access at a time. The producer claims a slot, writes it as often as it
      likes, then publishes; the consumer peeks, reads as often as it likes, then pops. */
  datatype Step<T> = Claim | Write(x: T) | Publish | Peek | Read | Pop | Available

  class SpscRing<T(0)> {
    const cap: nat
    const slots: array<T>
    var head: nat
    var tail: nat
    var tailCache: nat
    var headCache: nat
    /** Where each thread is: the producer holds a claimed slot, and has written it; the consumer holds a slot. */
    var claimed: bool
    var written: bool
    var peeked: bool
    /** Every item published, in order, and the item being written. */
    ghost var produced: seq<T>
    ghost var draft: T

    ghost predicate Valid()
      reads this, slots
    {
      && cap > 0 && slots.Length == cap
      && tail <= head <= tail + cap
      && tailCache <= tail && headCache <= head
      && |produced| == head
      && (forall i :: tail <= i < head ==> slots[Slot(i, cap)] == produced[i])
      && (claimed ==> head < tail + cap)
      && (written ==> claimed && slots[Slot(head, cap)] == draft)
      && (peeked ==> tail < head)
    }

    constructor (cap: nat)
      requires cap > 0
      ensures Valid() && fresh(slots) && this.cap == cap && produced == [] && tail == 0
      ensures !claimed && !written && !peeked
    {
      this.cap := cap;
      slots := new T[cap];
      head, tail, tailCache, headCache := 0, 0, 0, 0;
      claimed, written, peeked, produced := false, false, false, [];
    }

    /** What the consumer has taken out. */
    ghost function Consumed(): seq<T>
      requires Valid()
      reads this, slots
    {
      produced[..tail]
    }

    // ---------------------------------------------------------------- the producer

    /** The next free slot, if any; the consumer's cursor is read again only when the copy says full. */
    method ClaimSlot() returns (ok: bool)
      requires Valid() && !claimed
      modifies `tailCache, `claimed
      ensures Valid() && ok == claimed && (ok <==> head < tail + cap)
    {
      if head - tailCache >= cap {
        tailCache := tail;
        if head - tailCache >= cap {
          return false;
        }
      }
      claimed := true;
      return true;
    }

    method WriteSlot(x: T)
      requires Valid() && claimed
      modifies slots, `written, `draft
      ensures Valid() && written && draft == x && produced == old(produced)
    {
      forall i | tail <= i < head
        ensures Slot(i, cap) != Slot(head, cap)
      {
        SlotsDiffer(i, head, cap);
      }
      slots[Slot(head, cap)] := x;
      written, draft := true, x;
    }

    method PublishSlot()
      requires Valid() && written
      modifies `head, `claimed, `written, `produced
      ensures Valid() && produced == old(produced) + [draft] && !claimed && !written
    {
      produced := produced + [draft];
      head := head + 1;
      claimed, written := false, false;
    }

    // ---------------------------------------------------------------- the consumer

    /** The oldest slot, if any; the producer's cursor is read again only when the copy says empty. */
    method PeekSlot() returns (ok: bool)
      requires Valid() && !peeked
      modifies `headCache, `peeked
      ensures Valid() && ok == peeked && (ok <==> tail < head)
    {
      if tail >= headCache {
        headCache := head;
        if tail >= headCache {
          return false;
        }
      }
      peeked := true;
      return true;
    }

    /** What is read is what was published, whatever the producer does meanwhile. */
    method ReadSlot() returns (x: T)
      requires Valid() && peeked
      ensures tail < |produced| && x == produced[tail]
    {
      x := slots[Slot(tail, cap)];
    }

    method PopSlot()
      requires Valid() && peeked
      modifies `tail, `peeked
      ensures Valid() && !peeked && Consumed() == old(Consumed()) + [produced[old(tail)]]
    {
      tail := tail + 1;
      peeked := false;
    }

    /** How many items are there by now; never more than there are. */
    method CountAvailable() returns (n: nat)
      requires Valid()
      modifies `headCache
      ensures Valid() && n == head - tail == |produced| - |Consumed()|
    {
      headCache := head;
      return headCache - tail;
    }
  }

  /** Every interleaving of the two threads: no unread slot is overwritten, nothing unpublished is read, and what was
      read, in order, is a prefix of what was published. */
  method Interleave<T(0)>(ring: SpscRing<T>, steps: seq<Step<T>>) returns (taken: seq<T>)
    requires ring.Valid() && ring.produced == [] && ring.tail == 0 && !ring.claimed && !ring.written && !ring.peeked
    modifies ring, ring.slots
    ensures ring.Valid() && taken == ring.Consumed() <= ring.produced
    ensures |ring.produced| <= |taken| + ring.cap
  {
    taken := [];
    var i := 0;
    while i < |steps|
      invariant 0 <= i <= |steps| && ring.Valid() && taken == ring.Consumed()
    {
      match steps[i] {
        case Claim =>
          if !ring.claimed {
            var _ := ring.ClaimSlot();
          }
        case Write(x) =>
          if ring.claimed {
            ring.WriteSlot(x);
          }
        case Publish =>
          if ring.written {
            ring.PublishSlot();
          }
        case Peek =>
          if !ring.peeked {
            var _ := ring.PeekSlot();
          }
        case Read =>
          if ring.peeked {
            var x := ring.ReadSlot();
            assert x == ring.produced[ring.tail];
          }
        case Pop =>
          if ring.peeked {
            var x := ring.ReadSlot();
            ring.PopSlot();
            taken := taken + [x];
          }
        case Available =>
          var _ := ring.CountAvailable();
      }
      i := i + 1;
    }
  }
}
