/** Where pending payloads lie in the outbox's circular byte buffer, free of any object state. */
module OutboxLayout {

  datatype Extent = Extent(off: nat, len: nat)

  datatype Place = At(off: nat) | NoRoom

  function EndOf(x: Extent): nat {
    x.off + x.len
  }

  /** Where the next payload of `len` bytes goes. `live` is the start of the oldest pending payload. */
  function Choose(count: nat, live: nat, bufHead: nat, cap: nat, len: nat): (p: Place)
    requires len <= cap && bufHead <= cap && live <= cap
    ensures p.At? ==> p.off + len <= cap
  {
    if count == 0 then At(0)
    else if bufHead >= live then
      if bufHead + len > cap then
        if len > live then NoRoom else At(0)
      else At(bufHead)
    else if bufHead + len > live then NoRoom
    else At(bufHead)
  }

  ghost predicate Consecutive(xs: seq<Extent>, a: nat, b: nat) {
    b <= |xs| && forall i, j :: a <= i < j < b && j == i + 1 ==> xs[j].off == EndOf(xs[i])
  }

  /** Pending payloads lie in one run, or in two: the older from the oldest payload on, the newer from byte 0,
      begun because its first payload did not fit after the older run. */
  ghost predicate Laid(xs: seq<Extent>, wrapAt: nat, bufHead: nat, cap: nat) {
    && wrapAt <= |xs| && bufHead <= cap
    && (forall i :: 0 <= i < |xs| ==> EndOf(xs[i]) <= cap)
    && (xs != [] ==> 0 < wrapAt && EndOf(xs[|xs| - 1]) == bufHead)
    && Consecutive(xs, 0, wrapAt) && Consecutive(xs, wrapAt, |xs|)
    && (wrapAt < |xs| ==> && xs[wrapAt].off == 0 && bufHead <= xs[0].off
                          && cap < EndOf(xs[wrapAt - 1]) + xs[wrapAt].len)
  }

  /** The newer run ends exactly where the older begins: every byte between them is taken. */
  ghost predicate Brim(xs: seq<Extent>, wrapAt: nat, bufHead: nat) {
    0 < wrapAt < |xs| && bufHead == xs[0].off
  }

  lemma {:induction false} RunOrder(xs: seq<Extent>, a: nat, b: nat, i: nat, j: nat)
    requires Consecutive(xs, a, b) && a <= i <= j < b
    ensures xs[i].off <= xs[j].off && EndOf(xs[i]) <= EndOf(xs[j])
    ensures i < j ==> EndOf(xs[i]) <= xs[j].off
    decreases j
  {
    if i < j {
      RunOrder(xs, a, b, i, j - 1);
    }
  }

  /** Two byte ranges share no byte. */
  ghost predicate Apart(x: Extent, y: Extent) {
    EndOf(x) <= y.off || EndOf(y) <= x.off || x.len == 0 || y.len == 0
  }

  /** Short of the brim, the place chosen is apart from every pending payload, and the layout goes on. */
  lemma ChooseIsApart(xs: seq<Extent>, wrapAt: nat, bufHead: nat, cap: nat, len: nat, i: nat)
    requires Laid(xs, wrapAt, bufHead, cap) && !Brim(xs, wrapAt, bufHead) && len <= cap && i < |xs|
    requires Choose(|xs|, xs[0].off, bufHead, cap, len).At?
    ensures Apart(xs[i], Extent(Choose(|xs|, xs[0].off, bufHead, cap, len).off, len))
  {
    if i < wrapAt {
      RunOrder(xs, 0, wrapAt, 0, i);
      RunOrder(xs, 0, wrapAt, i, wrapAt - 1);
    } else {
      RunOrder(xs, wrapAt, |xs|, i, |xs| - 1);
    }
  }

  lemma ChooseExtends(xs: seq<Extent>, wrapAt: nat, bufHead: nat, cap: nat, len: nat)
    requires Laid(xs, wrapAt, bufHead, cap) && !Brim(xs, wrapAt, bufHead) && len <= cap
    requires Choose(|xs|, if xs == [] then 0 else xs[0].off, bufHead, cap, len).At?
    ensures var off := Choose(|xs|, if xs == [] then 0 else xs[0].off, bufHead, cap, len).off;
            var wrapped := xs != [] && (wrapAt < |xs| || off != bufHead);
            Laid(xs + [Extent(off, len)], if wrapped then wrapAt else |xs| + 1, off + len, cap)
  {
    hide Consecutive;
    var off := Choose(|xs|, if xs == [] then 0 else xs[0].off, bufHead, cap, len).off;
    var ys := xs + [Extent(off, len)];
    assert forall i :: 0 <= i < |xs| ==> ys[i] == xs[i];
    if xs != [] && wrapAt == |xs| {
      RunOrder(xs, 0, wrapAt, 0, wrapAt - 1);
    }
    ConsecutiveSnoc(xs, Extent(off, len), 0, wrapAt);
    ConsecutiveSnoc(xs, Extent(off, len), wrapAt, |xs|);
  }

  lemma ConsecutiveSnoc(xs: seq<Extent>, x: Extent, a: nat, b: nat)
    requires Consecutive(xs, a, b) || a >= b
    ensures b <= |xs| ==> Consecutive(xs + [x], a, b)
    ensures b == |xs| && (b <= a || x.off == EndOf(xs[b - 1])) ==> Consecutive(xs + [x], a, b + 1)
    ensures Consecutive(xs + [x], |xs| + 1, |xs| + 1)
  {
  }

  /** At the brim, with no empty payload, any accepted payload lands on a pending one. */
  lemma BrimOverwrites(xs: seq<Extent>, wrapAt: nat, bufHead: nat, cap: nat, len: nat)
    requires Laid(xs, wrapAt, bufHead, cap) && Brim(xs, wrapAt, bufHead) && 0 < len <= cap
    requires forall i :: 0 <= i < |xs| ==> 0 < xs[i].len
    requires Choose(|xs|, xs[0].off, bufHead, cap, len).At?
    ensures exists i :: 0 <= i < |xs| && !Apart(xs[i], Extent(Choose(|xs|, xs[0].off, bufHead, cap, len).off, len))
  {
    var x := Extent(Choose(|xs|, xs[0].off, bufHead, cap, len).off, len);
    if x.off == bufHead {
      assert !Apart(xs[0], x);
    } else {
      assert !Apart(xs[wrapAt], x);
    }
  }

  lemma {:induction false} RunLength(xs: seq<Extent>, a: nat, b: nat, i: nat, maxLen: nat)
    requires Consecutive(xs, a, b) && a <= i < b
    requires forall k :: 0 <= k < |xs| ==> xs[k].len <= maxLen
    ensures EndOf(xs[i]) <= xs[a].off + (i - a + 1) * maxLen
    decreases i
  {
    if i > a {
      RunLength(xs, a, b, i - 1, maxLen);
      assert (i - 1 - a + 1) * maxLen + maxLen == (i - a + 1) * maxLen;
    }
  }

  /** The brim takes more bytes than `cap` allows for one payload more than are pending. */
  lemma BrimNeeds(xs: seq<Extent>, wrapAt: nat, bufHead: nat, cap: nat, maxLen: nat)
    requires Laid(xs, wrapAt, bufHead, cap) && Brim(xs, wrapAt, bufHead)
    requires forall k :: 0 <= k < |xs| ==> xs[k].len <= maxLen
    ensures cap < (|xs| + 1) * maxLen
  {
    var n := |xs|;
    RunLength(xs, 0, wrapAt, wrapAt - 1, maxLen);
    RunLength(xs, wrapAt, n, n - 1, maxLen);
    assert wrapAt * maxLen + (n - wrapAt) * maxLen + maxLen == (n + 1) * maxLen;
  }

  /** With room for one payload more than there are slots, the brim is never reached. */
  lemma NeverAtBrim(xs: seq<Extent>, wrapAt: nat, bufHead: nat, cap: nat, slots: nat, maxLen: nat)
    requires Laid(xs, wrapAt, bufHead, cap) && |xs| <= slots && (slots + 1) * maxLen <= cap
    requires forall k :: 0 <= k < |xs| ==> xs[k].len <= maxLen
    ensures !Brim(xs, wrapAt, bufHead)
  {
    hide Laid, Brim;
    if Brim(xs, wrapAt, bufHead) {
      BrimNeeds(xs, wrapAt, bufHead, cap, maxLen);
      MulMonotone(|xs| + 1, slots + 1, maxLen);
    }
  }

  lemma MulMonotone(a: nat, b: nat, m: nat)
    requires a <= b
    ensures a * m <= b * m
  {
  }

  /** Releasing the `n` oldest keeps the layout. */
  lemma ReleaseKeeps(xs: seq<Extent>, wrapAt: nat, bufHead: nat, cap: nat, n: nat)
    requires Laid(xs, wrapAt, bufHead, cap) && n <= |xs|
    ensures Laid(xs[n..], if n < wrapAt then wrapAt - n else |xs| - n, bufHead, cap)
  {
    var ys := xs[n..];
    assert forall i :: 0 <= i < |ys| ==> ys[i] == xs[i + n];
    if n < wrapAt {
      RunOrder(xs, 0, wrapAt, 0, n);
    }
  }

  // ---------------------------------------------------------------- reserving room

  function Total(lens: seq<nat>): nat {
    if lens == [] then 0 else lens[0] + Total(lens[1..])
  }

  /** Payloads of these lengths, staged one after the other, all find a place. */
  predicate AllFit(count: nat, live: nat, bufHead: nat, cap: nat, lens: seq<nat>)
    requires bufHead <= cap && live <= cap
    decreases |lens|
  {
    if lens == [] then true
    else
      && lens[0] <= cap
      && var p := Choose(count, live, bufHead, cap, lens[0]);
      && p.At?
      && AllFit(count + 1, if count == 0 then p.off else live, p.off + lens[0], cap, lens[1..])
  }

  /** Free bytes in one piece, as the reservation counts them. */
  function FreeRun(count: nat, live: nat, bufHead: nat, cap: nat): int {
    if count == 0 then cap
    else if bufHead >= live then if cap - bufHead > live then cap - bufHead else live
    else live - bufHead
  }

  /** A payload finds a place exactly when it is no longer than the free run. */
  lemma PlacedExactly(count: nat, live: nat, bufHead: nat, cap: nat, len: nat)
    requires len <= cap && bufHead <= cap && live <= cap
    ensures Choose(count, live, bufHead, cap, len).At? <==> len <= FreeRun(count, live, bufHead, cap)
  {
  }

  lemma {:induction false} FitAscending(count: nat, live: nat, bufHead: nat, cap: nat, lens: seq<nat>)
    requires 0 < count && live <= bufHead && bufHead + Total(lens) <= cap
    ensures AllFit(count, live, bufHead, cap, lens)
    decreases |lens|
  {
    if lens != [] {
      FitAscending(count + 1, live, bufHead + lens[0], cap, lens[1..]);
    }
  }

  lemma {:induction false} FitBelow(count: nat, live: nat, bufHead: nat, cap: nat, lens: seq<nat>)
    requires 0 < count && live <= cap && bufHead + Total(lens) <= live
    ensures AllFit(count, live, bufHead, cap, lens)
    decreases |lens|
  {
    if lens != [] {
      FitBelow(count + 1, live, bufHead + lens[0], cap, lens[1..]);
    }
  }

  lemma {:induction false} FitWrapping(count: nat, live: nat, bufHead: nat, cap: nat, lens: seq<nat>)
    requires 0 < count && live <= bufHead <= cap && Total(lens) <= live
    ensures AllFit(count, live, bufHead, cap, lens)
    decreases |lens|
  {
    if lens != [] {
      if bufHead + lens[0] <= cap {
        FitWrapping(count + 1, live, bufHead + lens[0], cap, lens[1..]);
      } else {
        FitBelow(count + 1, live, lens[0], cap, lens[1..]);
      }
    }
  }

  /** A free run of `bytes` admits any payloads that total no more, in any order and of any sizes. */
  lemma RoomIsEnough(count: nat, live: nat, bufHead: nat, cap: nat, lens: seq<nat>)
    requires live <= cap && bufHead <= cap && Total(lens) <= FreeRun(count, live, bufHead, cap)
    ensures AllFit(count, live, bufHead, cap, lens)
  {
    if lens == [] {
    } else if count == 0 {
      FitAscending(1, 0, lens[0], cap, lens[1..]);
    } else if bufHead < live {
      FitBelow(count, live, bufHead, cap, lens);
    } else if Total(lens) <= live {
      FitWrapping(count, live, bufHead, cap, lens);
    } else {
      FitAscending(count, live, bufHead, cap, lens);
    }
  }
}
