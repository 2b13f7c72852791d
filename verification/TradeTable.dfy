/** The table of trades and the intrusive list that runs through it for each account. */
module TradeTables {
  import opened Bytes
  import opened Calendar
  import opened Ledgers
  import opened Applying

  const NIL := 0xFFFF_FFFF

  // ---------------------------------------------------------------- lists

  /** Row `c[k]` links to the next row of `c`, the last one to nothing. */
  ghost predicate LinkAt(next: seq<nat>, c: seq<nat>, k: nat)
    requires k < |c|
  {
    c[k] < |next| && next[c[k]] == if k + 1 < |c| then c[k + 1] else NIL
  }

  /** From `head`, following `next`, exactly the rows of `c` are visited, and then the end. */
  ghost predicate IsChain(next: seq<nat>, head: nat, c: seq<nat>) {
    && head == (if c == [] then NIL else c[0])
    && forall k :: 0 <= k < |c| ==> LinkAt(next, c, k)
  }

  ghost predicate Once(c: seq<nat>) {
    forall i, j :: 0 <= i < j < |c| ==> c[i] != c[j]
  }

  /** The list of account `a` visits its trades and no others, each once. */
  ghost predicate ListOf(rows: seq<Trade>, next: seq<nat>, head: nat, a: nat, c: seq<nat>) {
    && IsChain(next, head, c) && Once(c)
    && (forall k :: 0 <= k < |c| ==> c[k] < |rows| && rows[c[k]].account == a)
    && (forall t :: 0 <= t < |rows| && rows[t].account == a ==> t in c)
  }

  /** Every account has its list. */
  ghost predicate Lists(rows: seq<Trade>, next: seq<nat>, first: seq<nat>, chains: seq<seq<nat>>) {
    && |next| == |rows| < NIL && |chains| == |first|
    && (forall t :: 0 <= t < |rows| ==> rows[t].account < |first|)
    && (forall a :: 0 <= a < |first| ==> ListOf(rows, next, first[a], a, chains[a]))
  }

  /** Row `c[k]` links on, inside the table. */
  ghost predicate Continues(next: seq<nat>, c: seq<nat>, k: nat) {
    k + 1 < |c| && c[k] < |next| && next[c[k]] == c[k + 1] < |next|
  }

  /** A chain that starts at the same head through the same links begins with the same rows. */
  lemma {:induction false} ChainFollows(next: seq<nat>, head: nat, c: seq<nat>, other: seq<nat>, k: nat)
    requires IsChain(next, head, c) && |next| < NIL && k < |other| && head == other[0] < |next|
    requires forall i :: 0 <= i < k ==> Continues(next, other, i)
    ensures k < |c| && c[k] == other[k]
    decreases k
  {
    if k > 0 {
      ChainFollows(next, head, c, other, k - 1);
      assert Continues(next, other, k - 1) && LinkAt(next, c, k - 1);
    }
  }

  // ---------------------------------------------------------------- what each operation does to the lists

  /** A new row in front of its account's list. */
  lemma PushLists(rows: seq<Trade>, next: seq<nat>, first: seq<nat>, chains: seq<seq<nat>>, t: Trade)
    requires Lists(rows, next, first, chains) && t.account < |first| && |rows| + 1 < NIL
    ensures var a := t.account;
            Lists(rows + [t], next + [first[a]], first[a := |rows|], chains[a := [|rows|] + chains[a]])
  {
    hide ListOf;
    var a, n := t.account, |rows|;
    var rows', next', first', chains' := rows + [t], next + [first[a]], first[a := n], chains[a := [n] + chains[a]];
    forall b | 0 <= b < |first|
      ensures ListOf(rows', next', first'[b], b, chains'[b])
    {
      assert ListOf(rows, next, first[b], b, chains[b]);
      if b == a {
        PushOwn(rows, next, first[a], chains[a], t);
      } else {
        PushOther(rows, next, first[b], b, chains[b], t, first[a]);
      }
    }
  }

  lemma PushOwn(rows: seq<Trade>, next: seq<nat>, head: nat, c: seq<nat>, t: Trade)
    requires |next| == |rows| && ListOf(rows, next, head, t.account, c)
    ensures ListOf(rows + [t], next + [head], |rows|, t.account, [|rows|] + c)
  {
    var d, next' := [|rows|] + c, next + [head];
    assert forall k :: 1 <= k < |d| ==> d[k] == c[k - 1];
    forall k | 0 <= k < |d|
      ensures LinkAt(next', d, k)
    {
      if k > 0 {
        assert LinkAt(next, c, k - 1);
      }
    }
    forall x | 0 <= x < |rows| + 1 && (rows + [t])[x].account == t.account
      ensures x in d
    {
      if x < |rows| {
        assert x in c;
      } else {
        assert d[0] == x;
      }
    }
  }

  lemma PushOther(rows: seq<Trade>, next: seq<nat>, head: nat, b: nat, c: seq<nat>, t: Trade, link: nat)
    requires |next| == |rows| && ListOf(rows, next, head, b, c) && t.account != b
    ensures ListOf(rows + [t], next + [link], head, b, c)
  {
    forall k | 0 <= k < |c|
      ensures LinkAt(next + [link], c, k)
    {
      assert LinkAt(next, c, k);
    }
  }

  lemma NewAccountLists(rows: seq<Trade>, next: seq<nat>, first: seq<nat>, chains: seq<seq<nat>>)
    requires Lists(rows, next, first, chains)
    ensures Lists(rows, next, first + [NIL], chains + [[]])
  {
    hide ListOf;
    forall b | 0 <= b < |first| + 1
      ensures ListOf(rows, next, (first + [NIL])[b], b, (chains + [[]])[b])
    {
      if b < |first| {
        assert ListOf(rows, next, first[b], b, chains[b]);
      } else {
        NoTrades(rows, next, b);
      }
    }
  }

  lemma NoTrades(rows: seq<Trade>, next: seq<nat>, b: nat)
    requires forall t :: 0 <= t < |rows| ==> rows[t].account < b
    ensures ListOf(rows, next, NIL, b, [])
  {
  }

  /** The row at place `k` of account `a`'s list leaves it: its predecessor, or the head, skips it. */
  function Cut(next: seq<nat>, c: seq<nat>, k: nat): seq<nat>
    requires k < |c| && forall i :: 0 <= i < |c| ==> c[i] < |next|
  {
    if k == 0 then next else next[c[k - 1] := next[c[k]]]
  }

  /** And joins the front of account `b`'s list. */
  lemma MoveLists(rows: seq<Trade>, next: seq<nat>, first: seq<nat>, chains: seq<seq<nat>>, a: nat, k: nat, b: nat)
    requires Lists(rows, next, first, chains) && a < |first| && b < |first| && a != b && k < |chains[a]|
    ensures forall i :: 0 <= i < |chains[a]| ==> chains[a][i] < |next|
    ensures var t := chains[a][k];
            var rows' := rows[t := rows[t].(account := b)];
            var first1 := if k == 0 then first[a := next[t]] else first;
            Lists(rows', Cut(next, chains[a], k)[t := first1[b]], first1[b := t],
                  chains[a := chains[a][..k] + chains[a][k + 1..]][b := [t] + chains[b]])
  {
    assert ListOf(rows, next, first[a], a, chains[a]);
    var t := chains[a][k];
    var first1 := if k == 0 then first[a := next[t]] else first;
    var rows' := rows[t := rows[t].(account := b)];
    var next' := Cut(next, chains[a], k)[t := first1[b]];
    var chains' := chains[a := chains[a][..k] + chains[a][k + 1..]][b := [t] + chains[b]];
    forall x | 0 <= x < |first|
      ensures ListOf(rows', next', first1[b := t][x], x, chains'[x])
    {
      assert ListOf(rows, next, first[x], x, chains[x]);
      if x == a {
        LeaveList(rows, next, first[a], a, chains[a], k, b, first1[b]);
      } else if x == b {
        JoinList(rows, next, first[a], a, chains[a], k, b, first[b], chains[b]);
      } else {
        OtherList(rows, next, first[a], a, chains[a], k, b, first1[b], first[x], x, chains[x]);
      }
    }
  }

  lemma LeaveList(rows: seq<Trade>, next: seq<nat>, head: nat, a: nat, c: seq<nat>, k: nat, b: nat, link: nat)
    requires |next| == |rows| && ListOf(rows, next, head, a, c) && k < |c| && a != b
    ensures var t := c[k];
            ListOf(rows[t := rows[t].(account := b)], Cut(next, c, k)[t := link], if k == 0 then next[t] else head, a,
                   c[..k] + c[k + 1..])
  {
    var t, d := c[k], c[..k] + c[k + 1..];
    LeaveRows(c, k);
    LeaveLinks(next, head, c, k, link);
    hide IsChain, Once, Cut;
    LeaveOwned(rows, a, c, k, b);
  }

  /** What is left of the list is what the account still owns. */
  lemma LeaveOwned(rows: seq<Trade>, a: nat, c: seq<nat>, k: nat, b: nat)
    requires k < |c| && a != b && Once(c) && forall i :: 0 <= i < |c| ==> c[i] < |rows| && rows[c[i]].account == a
    requires forall t :: 0 <= t < |rows| && rows[t].account == a ==> t in c
    ensures var d, after := c[..k] + c[k + 1..], rows[c[k] := rows[c[k]].(account := b)];
            && (forall i :: 0 <= i < |d| ==> d[i] < |rows| && after[d[i]].account == a)
            && (forall t :: 0 <= t < |rows| && after[t].account == a ==> t in d)
  {
    var t, d := c[k], c[..k] + c[k + 1..];
    LeaveRows(c, k);
    hide Once;
    forall x | 0 <= x < |rows| && rows[t := rows[t].(account := b)][x].account == a
      ensures x in d
    {
      assert x in c && x != t;
    }
  }

  lemma LeaveLinks(next: seq<nat>, head: nat, c: seq<nat>, k: nat, link: nat)
    requires IsChain(next, head, c) && Once(c) && k < |c| && forall i :: 0 <= i < |c| ==> c[i] < |next|
    ensures IsChain(Cut(next, c, k)[c[k] := link], if k == 0 then next[c[k]] else head, c[..k] + c[k + 1..])
  {
    var t, d := c[k], c[..k] + c[k + 1..];
    var next' := Cut(next, c, k)[t := link];
    assert LinkAt(next, c, k);
    assert forall i :: 0 <= i < |d| ==> d[i] == if i < k then c[i] else c[i + 1];
    forall i | 0 <= i < |d|
      ensures LinkAt(next', d, i)
    {
      var j := if i < k then i else i + 1;
      assert LinkAt(next, c, j) && d[i] == c[j] != t;
      if i + 1 == k {
        assert next'[d[i]] == next[t];
      } else {
        assert k == 0 || c[j] != c[k - 1];
      }
    }
  }

  lemma LeaveRows(c: seq<nat>, k: nat)
    requires Once(c) && k < |c|
    ensures var d := c[..k] + c[k + 1..];
            && Once(d) && |d| == |c| - 1
            && (forall i :: 0 <= i < |d| ==> d[i] == (if i < k then c[i] else c[i + 1]) && d[i] != c[k])
            && (forall x :: x in c && x != c[k] ==> x in d)
  {
    var d := c[..k] + c[k + 1..];
    forall x | x in c && x != c[k]
      ensures x in d
    {
      var i :| 0 <= i < |c| && c[i] == x;
      assert d[if i < k then i else i - 1] == x;
    }
  }

  lemma JoinList(rows: seq<Trade>, next: seq<nat>, headA: nat, a: nat, c: seq<nat>, k: nat, b: nat,
                 headB: nat, e: seq<nat>)
    requires |next| == |rows| && ListOf(rows, next, headA, a, c) && k < |c| && a != b && ListOf(rows, next, headB, b, e)
    ensures var t := c[k];
            ListOf(rows[t := rows[t].(account := b)], Cut(next, c, k)[t := headB], t, b, [t] + e)
  {
    var t := c[k];
    var next' := Cut(next, c, k)[t := headB];
    var d := [t] + e;
    assert rows[t].account == a;
    Untouched(rows, next, a, c, k, headB, b, e);
    assert forall i :: 1 <= i < |d| ==> d[i] == e[i - 1];
    forall i | 0 <= i < |d|
      ensures LinkAt(next', d, i)
    {
      if i > 0 {
        assert LinkAt(next, e, i - 1);
      }
    }
    forall x | 0 <= x < |rows| && rows[t := rows[t].(account := b)][x].account == b
      ensures x in d
    {
      if x == t {
        assert d[0] == x;
      } else {
        assert x in e;
      }
    }
  }

  /** Rows of another account are neither the row that leaves nor the one before it. */
  lemma Untouched(rows: seq<Trade>, next: seq<nat>, a: nat, c: seq<nat>, k: nat, link: nat, b: nat, e: seq<nat>)
    requires |next| == |rows| && a != b && k < |c|
    requires forall i :: 0 <= i < |c| ==> c[i] < |rows| && rows[c[i]].account == a
    requires forall i :: 0 <= i < |e| ==> e[i] < |rows| && rows[e[i]].account == b
    ensures forall i :: 0 <= i < |e| ==> e[i] != c[k] && Cut(next, c, k)[c[k] := link][e[i]] == next[e[i]]
  {
    forall i | 0 <= i < |e|
      ensures e[i] != c[k] && Cut(next, c, k)[c[k] := link][e[i]] == next[e[i]]
    {
      if k > 0 {
        assert rows[c[k - 1]].account == a;
      }
    }
  }

  lemma OtherList(rows: seq<Trade>, next: seq<nat>, headA: nat, a: nat, c: seq<nat>, k: nat, b: nat, link: nat,
                  headX: nat, x: nat, e: seq<nat>)
    requires |next| == |rows| && ListOf(rows, next, headA, a, c) && k < |c| && x != a && x != b
    requires ListOf(rows, next, headX, x, e)
    ensures var t := c[k];
            ListOf(rows[t := rows[t].(account := b)], Cut(next, c, k)[t := link], headX, x, e)
  {
    var t := c[k];
    var next' := Cut(next, c, k)[t := link];
    Untouched(rows, next, a, c, k, link, x, e);
    forall i | 0 <= i < |e|
      ensures LinkAt(next', e, i)
    {
      assert LinkAt(next, e, i);
    }
  }

  // ---------------------------------------------------------------- moving a trade its account does not hold

  /** What the source's unlinking leaves when the trade is not in the list it is looked for in: nothing changed, and
      the trade put in front of the other list all the same. No arrangement of lists then fits: the account that
      held the trade still reaches it, and if that is the receiver its list has become a cycle. */
  lemma OnlyFromHolder(rows: seq<Trade>, next: seq<nat>, first: seq<nat>, chains: seq<seq<nat>>, t: nat, b: nat,
                       after: seq<seq<nat>>)
    requires Lists(rows, next, first, chains) && t < |rows| && b < |first|
    ensures !Lists(rows[t := rows[t].(account := b)], next[t := first[b]], first[b := t], after)
  {
    hide ListOf;
    var h := rows[t].account;
    assert ListOf(rows, next, first[h], h, chains[h]);
    var rows', next', first' := rows[t := rows[t].(account := b)], next[t := first[b]], first[b := t];
    if Lists(rows', next', first', after) {
      assert ListOf(rows', next', first'[h], h, after[h]);
      if h == b {
        Cycle(rows, next, first[b], b, chains[b], t, rows', after[b]);
      } else {
        StillReached(rows, next, first[h], h, chains[h], t, first[b], rows', after[h]);
      }
      assert false;
    }
  }

  /** Put in front of the list it is already in, a row leads back to itself. */
  lemma Cycle(rows: seq<Trade>, next: seq<nat>, head: nat, b: nat, c: seq<nat>, t: nat, rows': seq<Trade>, c': seq<nat>)
    requires |next| == |rows| < NIL && ListOf(rows, next, head, b, c) && t < |rows| && rows[t].account == b
    requires |rows'| == |rows|
    ensures !ListOf(rows', next[t := head], t, b, c')
  {
    var next' := next[t := head];
    var k :| 0 <= k < |c| && c[k] == t;
    var loop := [t] + c[..k + 1];
    assert forall i :: 1 <= i <= k + 1 ==> loop[i] == c[i - 1];
    forall i | 0 <= i < k + 1
      ensures Continues(next', loop, i)
    {
      if i > 0 {
        assert LinkAt(next, c, i - 1);
        assert c[i - 1] != c[k];
      }
    }
    if ListOf(rows', next', t, b, c') {
      ChainFollows(next', t, c', loop, k + 1);
    }
  }

  /** The account that held the row still reaches it, though the row is another's now. */
  lemma StillReached(rows: seq<Trade>, next: seq<nat>, head: nat, h: nat, c: seq<nat>, t: nat, link: nat,
                     rows': seq<Trade>, c': seq<nat>)
    requires |next| == |rows| == |rows'| < NIL && ListOf(rows, next, head, h, c)
    requires t < |rows| && rows[t].account == h && rows'[t].account != h
    ensures !ListOf(rows', next[t := link], head, h, c')
  {
    var next' := next[t := link];
    var k :| 0 <= k < |c| && c[k] == t;
    forall i | 0 <= i < k
      ensures Continues(next', c, i)
    {
      assert LinkAt(next, c, i) && c[i] != c[k];
    }
    if ListOf(rows', next', head, h, c') {
      ChainFollows(next', head, c', c, k);
    }
  }

  // ---------------------------------------------------------------- rebuilding

  ghost predicate Ascending(c: seq<nat>) {
    forall i, j :: 0 <= i < j < |c| ==> c[i] < c[j]
  }

  /** The list of account `a` so far: its rows from `lo` on, oldest first. */
  ghost predicate TailOf(rows: seq<Trade>, next: seq<nat>, head: nat, a: nat, c: seq<nat>, lo: nat) {
    && IsChain(next, head, c) && Ascending(c)
    && (forall k :: 0 <= k < |c| ==> lo <= c[k] < |rows| && rows[c[k]].account == a)
    && (forall t :: lo <= t < |rows| && rows[t].account == a ==> t in c)
  }

  lemma TailWhole(rows: seq<Trade>, next: seq<nat>, head: nat, a: nat, c: seq<nat>)
    requires TailOf(rows, next, head, a, c, 0)
    ensures ListOf(rows, next, head, a, c)
  {
  }

  lemma TailOwn(rows: seq<Trade>, next: seq<nat>, head: nat, c: seq<nat>, i: nat)
    requires |next| == |rows| && i < |rows| && TailOf(rows, next, head, rows[i].account, c, i + 1)
    ensures TailOf(rows, next[i := head], i, rows[i].account, [i] + c, i)
  {
    var d, next' := [i] + c, next[i := head];
    assert forall k :: 1 <= k < |d| ==> d[k] == c[k - 1];
    forall k | 0 <= k < |d|
      ensures LinkAt(next', d, k)
    {
      if k > 0 {
        assert LinkAt(next, c, k - 1);
      }
    }
    forall t | i <= t < |rows| && rows[t].account == rows[i].account
      ensures t in d
    {
      if t == i {
        assert d[0] == t;
      } else {
        assert t in c;
      }
    }
  }

  lemma TailOther(rows: seq<Trade>, next: seq<nat>, head: nat, a: nat, c: seq<nat>, i: nat, link: nat)
    requires |next| == |rows| && i < |rows| && TailOf(rows, next, head, a, c, i + 1) && rows[i].account != a
    ensures TailOf(rows, next[i := link], head, a, c, i)
  {
    var next' := next[i := link];
    forall k | 0 <= k < |c|
      ensures LinkAt(next', c, k)
    {
      assert LinkAt(next, c, k);
    }
  }

  // ---------------------------------------------------------------- order across a compaction

  /** Where row `t` goes once finished trades are dropped: behind the survivors that were before it. */
  function NewPlace(rows: seq<Trade>, w: Window, t: nat): nat {
    if t <= |rows| then |Surviving(rows[..t], w)| else 0
  }

  /** The rows of `c` that survive, in the order of `c`. */
  function Remaining(rows: seq<Trade>, w: Window, c: seq<nat>): seq<nat> {
    if c == [] then []
    else
      var init, t := Remaining(rows, w, c[..|c| - 1]), c[|c| - 1];
      if t < |rows| && SurvivesDay(rows[t], w) then init + [t] else init
  }

  function Renumbered(rows: seq<Trade>, w: Window, c: seq<nat>): (r: seq<nat>)
    ensures |r| == |c| && forall k :: 0 <= k < |c| ==> r[k] == NewPlace(rows, w, c[k])
  {
    seq(|c|, k requires 0 <= k < |c| => NewPlace(rows, w, c[k]))
  }

  /** The list `c'` is the list `c` with the dropped rows left out. */
  ghost predicate OrderKept(rows: seq<Trade>, w: Window, c: seq<nat>, c': seq<nat>) {
    c' == Renumbered(rows, w, Remaining(rows, w, c))
  }

  lemma {:induction false} PlaceGrows(rows: seq<Trade>, w: Window, t: nat, u: nat)
    requires t < u <= |rows|
    ensures NewPlace(rows, w, t) <= NewPlace(rows, w, u) <= |Surviving(rows, w)|
    ensures SurvivesDay(rows[t], w) ==> NewPlace(rows, w, t) < NewPlace(rows, w, u)
    ensures SurvivesDay(rows[t], w) ==>
              Surviving(rows[..u], w)[NewPlace(rows, w, t)] == Surviving(rows, w)[NewPlace(rows, w, t)] == rows[t]
    decreases |rows| - t, u
  {
    hide SurvivesDay;
    if u < |rows| {
      PlaceGrows(rows[..|rows| - 1], w, t, u);
      assert rows[..|rows| - 1][..t] == rows[..t] && rows[..|rows| - 1][..u] == rows[..u];
    } else {
      assert rows[..u] == rows;
      if t + 1 < |rows| {
        PlaceGrows(rows[..|rows| - 1], w, t, u - 1);
        assert rows[..|rows| - 1][..t] == rows[..t];
      } else {
        assert rows[..|rows| - 1] == rows[..t];
      }
    }
  }

  lemma {:induction false} PlacesCover(rows: seq<Trade>, w: Window, j: nat) returns (t: nat)
    requires j < |Surviving(rows, w)|
    ensures t < |rows| && SurvivesDay(rows[t], w) && NewPlace(rows, w, t) == j
    decreases |rows|
  {
    hide SurvivesDay;
    var init := rows[..|rows| - 1];
    if j < |Surviving(init, w)| {
      t := PlacesCover(init, w, j);
      assert init[..t] == rows[..t];
    } else {
      t := |rows| - 1;
    }
  }

  lemma {:induction false} RemainingFrom(rows: seq<Trade>, w: Window, c: seq<nat>)
    ensures forall t :: t in Remaining(rows, w, c) <==> t in c && t < |rows| && SurvivesDay(rows[t], w)
    ensures Once(c) ==> Once(Remaining(rows, w, c))
  {
    hide SurvivesDay;
    if c != [] {
      var init := c[..|c| - 1];
      RemainingFrom(rows, w, init);
      assert c == init + [c[|c| - 1]];
    }
  }

  lemma FirstIn(c: seq<nat>)
    ensures c == [] || c[0] in c
  {
  }

  /** Two ascending lists of the same rows are the same list. */
  lemma {:induction false} SameAscending(c: seq<nat>, d: seq<nat>)
    requires Ascending(c) && Ascending(d) && forall t :: t in c <==> t in d
    ensures c == d
    decreases |c|
  {
    if c == [] {
      FirstIn(d);
    } else {
      assert c[|c| - 1] in d;
      assert d[|d| - 1] in c;
      var init, rest, last := c[..|c| - 1], d[..|d| - 1], c[|c| - 1];
      assert c == init + [last] && d == rest + [last];
      assert last !in init && last !in rest;
      forall t
        ensures t in init <==> t in rest
      {
        assert t in init <==> t in c && t != last;
        assert t in rest <==> t in d && t != last;
      }
      SameAscending(init, rest);
    }
  }

  /** Compaction keeps the order of an account's list exactly when what remains of the list was in table order. */
  lemma OrderKeptExactly(rows: seq<Trade>, w: Window, next: seq<nat>, head: nat, a: nat, c: seq<nat>,
                         next': seq<nat>, head': nat, c': seq<nat>)
    requires ListOf(rows, next, head, a, c) && ListOf(Surviving(rows, w), next', head', a, c') && Ascending(c')
    ensures OrderKept(rows, w, c, c') <==> Ascending(Remaining(rows, w, c))
  {
    hide IsChain, NewPlace, Remaining, SurvivesDay;
    RemainingFrom(rows, w, c);
    var r := Remaining(rows, w, c);
    var d := Renumbered(rows, w, r);
    forall i, j | 0 <= i < |r| && 0 <= j < |r| && r[i] < r[j]
      ensures d[i] < d[j]
    {
      assert r[i] in r && r[j] in r;
      PlaceGrows(rows, w, r[i], r[j]);
    }
    if Ascending(r) {
      SameRowsAfter(rows, w, next, head, a, c, next', head', c');
      SameAscending(c', d);
    }
  }

  lemma SameRowsAfter(rows: seq<Trade>, w: Window, next: seq<nat>, head: nat, a: nat, c: seq<nat>,
                      next': seq<nat>, head': nat, c': seq<nat>)
    requires ListOf(rows, next, head, a, c) && ListOf(Surviving(rows, w), next', head', a, c')
    ensures var d := Renumbered(rows, w, Remaining(rows, w, c));
            forall j :: j in c' <==> j in d
  {
    hide IsChain, NewPlace, Remaining, SurvivesDay, Once;
    RemainingFrom(rows, w, c);
    var r := Remaining(rows, w, c);
    var d := Renumbered(rows, w, r);
    forall j | j in c'
      ensures j in d
    {
      var t := PlacesCover(rows, w, j);
      PlaceGrows(rows, w, t, |rows|);
      assert rows[t].account == a && t in c && t in r;
      var k :| 0 <= k < |r| && r[k] == t;
      assert d[k] == j;
    }
    forall j | j in d
      ensures j in c'
    {
      var k :| 0 <= k < |d| && d[k] == j;
      assert r[k] in r;
      PlaceGrows(rows, w, r[k], |rows|);
      PlaceAtEnd(rows, w);
      assert Surviving(rows, w)[j].account == a;
    }
  }

  lemma PlaceAtEnd(rows: seq<Trade>, w: Window)
    ensures NewPlace(rows, w, |rows|) == |Surviving(rows, w)|
  {
    assert rows[..|rows|] == rows;
  }

  // ---------------------------------------------------------------- walking

  /** How many rows of `c` netting would advance. */
  function CountOn(rows: seq<Trade>, c: seq<nat>, date: Date): nat
    requires forall k :: 0 <= k < |c| ==> c[k] < |rows|
  {
    if c == [] then 0
    else CountOn(rows, c[..|c| - 1], date) + if Nettable(rows[c[|c| - 1]], date) then 1 else 0
  }

  function NettedRows(rows: seq<Trade>, account: nat, date: Date): set<nat> {
    set i | 0 <= i < |rows| && rows[i].account == account && Nettable(rows[i], date)
  }

  lemma {:induction false} CountAsSet(rows: seq<Trade>, account: nat, date: Date)
    ensures CountNetted(rows, account, date) == |NettedRows(rows, account, date)|
  {
    hide Nettable;
    if rows != [] {
      var init, n := rows[..|rows| - 1], |rows| - 1;
      CountAsSet(init, account, date);
      var here := rows[n].account == account && Nettable(rows[n], date);
      assert forall i :: 0 <= i < n ==> init[i] == rows[i];
      assert NettedRows(rows, account, date) == NettedRows(init, account, date) + if here then {n} else {};
    }
  }

  /** The rows of `c` that netting would advance. */
  function Walked(rows: seq<Trade>, c: seq<nat>, date: Date): set<nat>
    requires forall k :: 0 <= k < |c| ==> c[k] < |rows|
  {
    set x | x in c && Nettable(rows[x], date)
  }

  lemma {:induction false} CountOnAsSet(rows: seq<Trade>, c: seq<nat>, date: Date)
    requires Once(c) && forall k :: 0 <= k < |c| ==> c[k] < |rows|
    ensures CountOn(rows, c, date) == |Walked(rows, c, date)|
  {
    hide Nettable;
    if c == [] {
      assert Walked(rows, c, date) == {};
    } else {
      var init, x := c[..|c| - 1], c[|c| - 1];
      CountOnAsSet(rows, init, date);
      assert c == init + [x];
      assert x !in init;
      hide CountOn;
      assert Walked(rows, c, date) == Walked(rows, init, date) + if Nettable(rows[x], date) then {x} else {};
    }
  }

  /** Walking an account's list counts what a scan of the whole table would. */
  lemma WalkCounts(rows: seq<Trade>, next: seq<nat>, head: nat, a: nat, c: seq<nat>, date: Date)
    requires ListOf(rows, next, head, a, c)
    ensures CountOn(rows, c, date) == CountNetted(rows, a, date)
  {
    hide Nettable;
    CountAsSet(rows, a, date);
    CountOnAsSet(rows, c, date);
    assert Walked(rows, c, date) == NettedRows(rows, a, date);
  }

  /** The rows after the first `k` of a list were met: those the walk is for have advanced. */
  function AdvancedAlong(rows: seq<Trade>, c: seq<nat>, k: nat, trigger: Trigger, on: Trade -> bool): (r: seq<Trade>)
    requires k <= |c|
    ensures |r| == |rows|
  {
    seq(|rows|, i requires 0 <= i < |rows| =>
      if i in c[..k] && on(rows[i]) then Advanced(rows[i], trigger) else rows[i])
  }

  /** What a walk along the list of account `a` needs to know of it. */
  ghost predicate Walking(rows: seq<Trade>, next: seq<nat>, a: nat, c: seq<nat>) {
    && Once(c) && |next| == |rows| < NIL
    && forall k :: 0 <= k < |c| ==> LinkAt(next, c, k) && c[k] < |rows| && rows[c[k]].account == a
  }

  lemma WalkStarts(rows: seq<Trade>, next: seq<nat>, head: nat, a: nat, c: seq<nat>, trigger: Trigger,
                   on: Trade -> bool)
    requires |next| == |rows| < NIL && ListOf(rows, next, head, a, c)
    ensures Walking(rows, next, a, c) && head == (if c == [] then NIL else c[0])
    ensures AdvancedAlong(rows, c, 0, trigger, on) == rows && c[..0] == []
  {
  }

  lemma WalkStep(rows: seq<Trade>, next: seq<nat>, a: nat, c: seq<nat>, k: nat, trigger: Trigger, on: Trade -> bool)
    requires Walking(rows, next, a, c) && k < |c|
    ensures c[k] < |rows| == |next| && c[k] != NIL && rows[c[k]].account == a
    ensures forall i :: 0 <= i < |c| ==> c[i] < |rows|
    ensures next[c[k]] == if k + 1 < |c| then c[k + 1] else NIL
    ensures AdvancedAlong(rows, c, k, trigger, on)[c[k]] == rows[c[k]]
    ensures AdvancedAlong(rows, c, k + 1, trigger, on)
         == AdvancedAlong(rows, c, k, trigger, on)[c[k] := if on(rows[c[k]]) then Advanced(rows[c[k]], trigger)
                                                           else rows[c[k]]]
  {
    assert LinkAt(next, c, k) && c[k] !in c[..k];
    AlongStep(rows, c, k, trigger, on);
  }

  lemma AlongStep(rows: seq<Trade>, c: seq<nat>, k: nat, trigger: Trigger, on: Trade -> bool)
    requires k < |c| && c[k] < |rows| && c[k] !in c[..k]
    ensures AdvancedAlong(rows, c, k, trigger, on)[c[k]] == rows[c[k]]
    ensures AdvancedAlong(rows, c, k + 1, trigger, on)
         == AdvancedAlong(rows, c, k, trigger, on)[c[k] := if on(rows[c[k]]) then Advanced(rows[c[k]], trigger)
                                                           else rows[c[k]]]
  {
    hide Advanced;
    var more, fewer := AdvancedAlong(rows, c, k + 1, trigger, on), AdvancedAlong(rows, c, k, trigger, on);
    assert c[..k + 1] == c[..k] + [c[k]];
    forall i | 0 <= i < |rows| && i != c[k]
      ensures more[i] == fewer[i]
    {
      assert i in c[..k + 1] <==> i in c[..k];
    }
  }

  /** At the end, every row of the account that the walk is for has advanced, and no other. */
  lemma WalkEnds(rows: seq<Trade>, next: seq<nat>, head: nat, a: nat, c: seq<nat>, trigger: Trigger, on: Trade -> bool,
                 after: seq<Trade>)
    requires ListOf(rows, next, head, a, c) && |after| == |rows|
    requires forall i :: 0 <= i < |rows| ==>
               after[i] == if rows[i].account == a && on(rows[i]) then Advanced(rows[i], trigger) else rows[i]
    ensures AdvancedAlong(rows, c, |c|, trigger, on) == after
    ensures forall i :: 0 <= i < |rows| ==> after[i].account == rows[i].account && after[i].id == rows[i].id
  {
    hide IsChain, Once, Advanced;
    assert c[..|c|] == c;
    forall i | 0 <= i < |rows|
      ensures Advanced(rows[i], trigger).account == rows[i].account && Advanced(rows[i], trigger).id == rows[i].id
    {
      AdvancedFields(rows[i], trigger);
    }
  }

  lemma NetEnds(rows: seq<Trade>, next: seq<nat>, head: nat, a: nat, c: seq<nat>, date: Date, on: Trade -> bool)
    requires ListOf(rows, next, head, a, c) && forall t :: on(t) <==> t.date == date
    ensures var r := NettedTrades(rows, a, date);
            && AdvancedAlong(rows, c, |c|, Net, on) == r
            && forall i :: 0 <= i < |rows| ==> r[i].account == rows[i].account && r[i].id == rows[i].id
  {
    hide ListOf, Advanced;
    WalkEnds(rows, next, head, a, c, Net, on, NettedTrades(rows, a, date));
  }

  lemma SettleEnds(rows: seq<Trade>, next: seq<nat>, head: nat, a: nat, c: seq<nat>, instrument: nat, date: Date,
                   side: nat, trigger: Trigger, on: Trade -> bool)
    requires ListOf(rows, next, head, a, c) && forall t :: on(t) <==> Covered(t, a, instrument, date, side)
    ensures var r := SettledTrades(rows, a, instrument, date, side, trigger);
            && AdvancedAlong(rows, c, |c|, trigger, on) == r
            && forall i :: 0 <= i < |rows| ==> r[i].account == rows[i].account && r[i].id == rows[i].id
  {
    hide ListOf, Advanced;
    WalkEnds(rows, next, head, a, c, trigger, on, SettledTrades(rows, a, instrument, date, side, trigger));
  }

  /** States advance; owners, and so lists, stay. */
  lemma StatesKeepLists(rows: seq<Trade>, rows': seq<Trade>, next: seq<nat>, first: seq<nat>, chains: seq<seq<nat>>)
    requires Lists(rows, next, first, chains) && |rows'| == |rows|
    requires forall i :: 0 <= i < |rows| ==> rows'[i].account == rows[i].account
    ensures Lists(rows', next, first, chains)
  {
    hide IsChain, Once;
    forall a | 0 <= a < |first|
      ensures ListOf(rows', next, first[a], a, chains[a])
    {
      assert ListOf(rows, next, first[a], a, chains[a]);
    }
  }

  class TradeTable {
    var rows: seq<Trade>
    var next: seq<nat>
    var first: seq<nat>
    var index: map<U64, nat>
    /** For each account, the rows its list visits. */
    ghost var chains: seq<seq<nat>>

    ghost predicate Valid()
      reads this
    {
      Lists(rows, next, first, chains) && TradesIndexed(rows, index)
    }

    constructor ()
      ensures Valid() && rows == [] && first == [] && index == map[] && chains == []
    {
      rows, next, first, index, chains := [], [], [], map[], [];
    }

    method AddAccount()
      requires Valid()
      modifies `first, `chains
      ensures Valid() && first == old(first) + [NIL] && chains == old(chains) + [[]]
    {
      NewAccountLists(rows, next, first, chains);
      first, chains := first + [NIL], chains + [[]];
    }

    /** A new trade, in front of its account's list. */
    method Push(t: Trade)
      requires Valid() && t.account < |first| && |rows| + 1 < NIL && t.id !in index
      modifies this
      ensures Valid() && rows == old(rows) + [t] && |first| == old(|first|)
      ensures index == old(index)[t.id := old(|rows|)]
      ensures chains == old(chains)[t.account := [old(|rows|)] + old(chains)[t.account]]
    {
      PushLists(rows, next, first, chains, t);
      var a, n := t.account, |rows|;
      chains := chains[a := [n] + chains[a]];
      next, rows := next + [first[a]], rows + [t];
      first := first[a := n];
      index := index[t.id := n];
    }

    /** Takes row `t` out of account `a`'s list, or reports that it is not there. */
    method Unlink(a: nat, t: nat, ghost k: nat) returns (found: bool)
      requires Valid() && a < |first| && t < |rows|
      requires t in chains[a] ==> k < |chains[a]| && chains[a][k] == t
      modifies `next, `first
      ensures found <==> t in chains[a]
      ensures forall i :: 0 <= i < |chains[a]| ==> chains[a][i] < |old(next)|
      ensures found ==> next == Cut(old(next), chains[a], k)
                        && first == if k == 0 then old(first)[a := old(next)[t]] else old(first)
      ensures !found ==> next == old(next) && first == old(first)
    {
      hide Lists, TradesIndexed;
      ListFacts(rows, next, first, chains, a);
      ghost var c := chains[a];
      var at := first[a];
      if at == NIL {
        return false;
      }
      if at == t {
        first := first[a := next[t]];
        return true;
      }
      ghost var j := 0;
      assert LinkAt(next, c, 0);
      while next[at] != NIL
        invariant j < |c| && at == c[j] < |next| && next == old(next) && first == old(first) && chains == old(chains)
        invariant rows == old(rows) && LinkAt(next, c, j)
        invariant forall i :: 0 <= i <= j ==> c[i] != t
        decreases |c| - j
      {
        if next[at] == t {
          assert c[j + 1] == t;
          assert k == j + 1;
          next := next[at := next[t]];
          return true;
        }
        at := next[at];
        j := j + 1;
        assert LinkAt(next, c, j);
      }
      return false;
    }

    /** No arrangement of lists fits the links. */
    ghost predicate Broken()
      reads this
    {
      forall after :: !Lists(rows, next, first, after)
    }

    /** Hands row `t` from one account to another: out of one list, in front of the other. Lists remain lists exactly
        when the giver held it. */
    method Move(t: nat, from: nat, to: nat)
      requires Valid() && t < |rows| && from < |first| && to < |first| && from != to
      modifies this
      ensures rows == old(rows)[t := old(rows)[t].(account := to)] && index == old(index) && |first| == old(|first|)
      ensures if old(rows)[t].account == from then Valid() else Broken()
    {
      hide Lists, TradesIndexed;
      ListFacts(rows, next, first, chains, from);
      ghost var k := if t in chains[from] then (var k :| 0 <= k < |chains[from]| && chains[from][k] == t; k) else 0;
      var found := Unlink(from, t, k);
      if found {
        MoveLists(rows, old(next), old(first), chains, from, k, to);
        chains := chains[from := chains[from][..k] + chains[from][k + 1..]][to := [t] + chains[to]];
      } else {
        ghost var rows', next', first' := rows[t := rows[t].(account := to)], next[t := first[to]], first[to := t];
        forall after: seq<seq<nat>>
          ensures !Lists(rows', next', first', after)
        {
          OnlyFromHolder(rows, next, first, chains, t, to, after);
        }
      }
      IndexKept(rows, index, t, to);
      ListFacts(rows, old(next), old(first), old(chains), from);
      rows := rows[t := rows[t].(account := to)];
      next := next[t := first[to]];
      first := first[to := t];
    }

    /** One trade moves along its edge; links, good or broken, are as they were. */
    method Advance(t: nat, trigger: Trigger)
      requires t < |rows|
      modifies `rows
      ensures rows == old(rows)[t := Advanced(old(rows)[t], trigger)]
      ensures (old(Valid()) ==> Valid()) && (old(Broken()) ==> Broken())
    {
      hide Lists, TradesIndexed;
      ghost var was := rows;
      rows := rows[t := Advanced(rows[t], trigger)];
      if Lists(was, next, first, chains) {
        StatesKeepLists(was, rows, next, first, chains);
      }
      if TradesIndexed(was, index) {
        StatesKeepIndex(was, rows, index);
      }
      forall after | Lists(rows, next, first, after)
        ensures Lists(was, next, first, after)
      {
        StatesKeepLists(rows, was, next, first, after);
      }
    }

    /** Netting walks one account's list; every trade of the account with the date is met, once. */
    method NetAll(a: nat, date: Date) returns (count: nat)
      requires Valid() && a < |first|
      modifies `rows
      ensures Valid() && rows == NettedTrades(old(rows), a, date) && count == CountNetted(old(rows), a, date)
    {
      hide Lists, TradesIndexed, Advanced, Nettable, CountOn, Walking, ListOf, AdvancedAlong, NettedTrades;
      CountOnNothing(rows, date);
      ListFacts(rows, next, first, chains, a);
      ghost var c, was, on := chains[a], rows, (t: Trade) => t.date == date;
      WalkStarts(was, next, first[a], a, c, Net, on);
      count := 0;
      var t := first[a];
      ghost var k := 0;
      while t != NIL
        invariant k <= |c| && t == (if k < |c| then c[k] else NIL) && Walking(was, next, a, c)
        invariant rows == AdvancedAlong(was, c, k, Net, on)
        invariant chains == old(chains) && next == old(next) && first == old(first)
        invariant count == CountOn(was, c[..k], date)
        decreases |c| - k
      {
        WalkStep(was, next, a, c, k, Net, on);
        CountOnStep(was, c, k, date);
        AdvancedFields(was[t], Net);
        NettableOnly(was[t], date);
        if rows[t].account == a && rows[t].date == date && NextState(rows[t].state, Net) != Absent {
          rows := rows[t := Advanced(rows[t], Net)];
          count := count + 1;
        }
        t := next[t];
        k := k + 1;
      }
      assert c[..k] == c;
      WalkCounts(was, next, first[a], a, c, date);
      NetEnds(was, next, first[a], a, c, date, on);
      StatesKeepLists(was, rows, next, first, chains);
      StatesKeepIndex(was, rows, index);
    }

    /** Settlement walks the same list and advances the trades it covers. */
    method SettleAll(a: nat, instrument: nat, date: Date, side: nat, trigger: Trigger)
      requires Valid() && a < |first|
      modifies `rows
      ensures Valid() && rows == SettledTrades(old(rows), a, instrument, date, side, trigger)
    {
      hide Lists, TradesIndexed, Advanced, Walking, ListOf, AdvancedAlong, SettledTrades;
      ListFacts(rows, next, first, chains, a);
      ghost var c, was, on := chains[a], rows, (t: Trade) => Covered(t, a, instrument, date, side);
      WalkStarts(was, next, first[a], a, c, trigger, on);
      var t := first[a];
      ghost var k := 0;
      while t != NIL
        invariant k <= |c| && t == (if k < |c| then c[k] else NIL) && Walking(was, next, a, c)
        invariant rows == AdvancedAlong(was, c, k, trigger, on)
        invariant chains == old(chains) && next == old(next) && first == old(first)
        decreases |c| - k
      {
        WalkStep(was, next, a, c, k, trigger, on);
        if Covered(rows[t], a, instrument, date, side) {
          rows := rows[t := Advanced(rows[t], trigger)];
        }
        t := next[t];
        k := k + 1;
      }
      SettleEnds(was, next, first[a], a, c, instrument, date, side, trigger, on);
      StatesKeepLists(was, rows, next, first, chains);
      StatesKeepIndex(was, rows, index);
    }

    /** The trade numbers of an account, in the order of its list. */
    method Ids(a: nat) returns (ids: seq<U64>)
      requires Valid() && a < |first|
      ensures |ids| == |chains[a]|
      ensures forall k :: 0 <= k < |ids| ==> chains[a][k] < |rows| && ids[k] == rows[chains[a][k]].id
    {
      hide Lists, TradesIndexed;
      ListFacts(rows, next, first, chains, a);
      ghost var c := chains[a];
      ids := [];
      var t := first[a];
      while t != NIL
        invariant |ids| <= |c| && t == (if |ids| < |c| then c[|ids|] else NIL)
        invariant forall k :: 0 <= k < |ids| ==> ids[k] == rows[c[k]].id
        decreases |c| - |ids|
      {
        assert LinkAt(next, c, |ids|);
        ids := ids + [rows[t].id];
        t := next[t];
      }
    }

    /** Drops the settled trades whose date left the window, sliding the others down in order; then rebuilds lists and
        index. When nothing is dropped, nothing is touched. */
    method Compact(w: Window) returns (closed: nat)
      requires Valid()
      modifies this
      ensures Valid() && rows == Surviving(old(rows), w) && closed == |old(rows)| - |rows| && |first| == old(|first|)
      ensures closed == 0 ==> rows == old(rows) && next == old(next) && first == old(first) && index == old(index)
      ensures closed > 0 ==> forall a :: 0 <= a < |chains| ==> Ascending(chains[a])
      ensures closed > 0 ==> |chains| == |old(chains)| && forall a :: 0 <= a < |chains| ==>
                (OrderKept(old(rows), w, old(chains)[a], chains[a]) <==>
                    Ascending(Remaining(old(rows), w, old(chains)[a])))
    {
      hide Lists, TradesIndexed, SurvivesDay, OrderKept, Remaining, Ascending;
      TableFacts();
      ghost var was := rows;
      var dest, i := 0, 0;
      closed := 0;
      while i < |rows|
        invariant dest <= i <= |rows| == |was| && closed == i - dest
        invariant rows[..dest] == Surviving(was[..i], w)
        invariant forall j :: i <= j < |rows| ==> rows[j] == was[j]
        invariant closed == 0 ==> rows == was
        invariant next == old(next) && first == old(first) && index == old(index) && chains == old(chains)
      {
        assert was[..i + 1][..i] == was[..i];
        if !SurvivesDay(rows[i], w) {
          closed := closed + 1;
        } else {
          if dest != i {
            rows := rows[dest := rows[i]];
          }
          assert rows[..dest + 1] == rows[..dest] + [rows[dest]];
          dest := dest + 1;
        }
        i := i + 1;
      }
      assert was[..i] == was;
      if closed == 0 {
        assert rows[..dest] == rows;
        return;
      }
      rows := rows[..dest];
      SurvivorsOwned(was, w, |first|);
      Rebuild();
      SurvivorsDistinct(was, w, old(index));
      Reindex();
      forall a | 0 <= a < |chains|
        ensures OrderKept(was, w, old(chains)[a], chains[a]) <==> Ascending(Remaining(was, w, old(chains)[a]))
      {
        ListFacts(was, old(next), old(first), old(chains), a);
        ListFacts(rows, next, first, chains, a);
        OrderKeptExactly(was, w, old(next), old(first)[a], a, old(chains)[a], next, first[a], chains[a]);
      }
    }

    /** Lists anew, from the last row back, each row in front of its account's list: oldest first. */
    method Rebuild()
      requires |rows| < NIL && forall t :: 0 <= t < |rows| ==> rows[t].account < |first|
      modifies `next, `first, `chains
      ensures Lists(rows, next, first, chains) && |chains| == |first| == old(|first|)
      ensures forall a :: 0 <= a < |chains| ==> Ascending(chains[a])
    {
      next := seq(|rows|, _ => NIL);
      first := seq(|first|, _ => NIL);
      chains := seq(|first|, _ => []);
      var i := |rows|;
      while i > 0
        invariant 0 <= i <= |rows| && |next| == |rows| && |first| == old(|first|) == |chains|
        invariant forall a :: 0 <= a < |first| ==> TailOf(rows, next, first[a], a, chains[a], i)
      {
        i := i - 1;
        var b := rows[i].account;
        ghost var next', first', chains' := next, first, chains;
        next := next[i := first[b]];
        first := first[b := i];
        chains := chains[b := [i] + chains[b]];
        forall a | 0 <= a < |first|
          ensures TailOf(rows, next, first[a], a, chains[a], i)
        {
          assert TailOf(rows, next', first'[a], a, chains'[a], i + 1);
          if a == b {
            TailOwn(rows, next', first'[b], chains'[b], i);
          } else {
            TailOther(rows, next', first'[a], a, chains'[a], i, first'[b]);
          }
        }
      }
      forall a | 0 <= a < |first|
        ensures ListOf(rows, next, first[a], a, chains[a]) && Ascending(chains[a])
      {
        assert TailOf(rows, next, first[a], a, chains[a], 0);
        TailWhole(rows, next, first[a], a, chains[a]);
      }
    }

    /** The index emptied and filled again, row by row. */
    method Reindex()
      requires DistinctIds(rows)
      modifies `index
      ensures TradesIndexed(rows, index) && index == Reindexed(rows)
    {
      index := map[];
      var i := 0;
      while i < |rows|
        invariant 0 <= i <= |rows| && index == Reindexed(rows[..i])
      {
        assert rows[..i + 1][..i] == rows[..i];
        index := index[rows[i].id := i];
        i := i + 1;
      }
      assert rows[..i] == rows;
      ReindexedIndexes(rows);
    }

    lemma ListHere(a: nat)
      requires Valid() && a < |first|
      ensures |chains| == |first| && ListOf(rows, next, first[a], a, chains[a])
    {
    }

    lemma TableFacts()
      requires Valid()
      ensures |rows| < NIL && |chains| == |first| && forall t :: 0 <= t < |rows| ==> rows[t].account < |first|
    {
    }
  }

  lemma CountOnNothing(rows: seq<Trade>, date: Date)
    ensures CountOn(rows, [], date) == 0
  {
  }

  lemma CountOnStep(rows: seq<Trade>, c: seq<nat>, k: nat, date: Date)
    requires k < |c| && forall i :: 0 <= i < |c| ==> c[i] < |rows|
    ensures CountOn(rows, c[..k + 1], date) == CountOn(rows, c[..k], date) + if Nettable(rows[c[k]], date) then 1 else 0
  {
    assert c[..k + 1][..k] == c[..k];
  }

  lemma AdvancedFields(t: Trade, trigger: Trigger)
    ensures var u := Advanced(t, trigger);
            u.account == t.account && u.id == t.id && u == t.(state := u.state)
    ensures NextState(t.state, trigger) == Absent ==> Advanced(t, trigger) == t
  {
  }

  lemma NettableOnly(t: Trade, date: Date)
    ensures Nettable(t, date) <==> t.date == date && NextState(t.state, Net) != Absent
  {
  }

  lemma StatesKeepIndex(was: seq<Trade>, rows: seq<Trade>, index: map<U64, nat>)
    requires TradesIndexed(was, index) && |rows| == |was| && forall i :: 0 <= i < |was| ==> rows[i].id == was[i].id
    ensures TradesIndexed(rows, index)
  {
  }

  lemma SurvivorsOwned(was: seq<Trade>, w: Window, accounts: nat)
    requires forall t :: 0 <= t < |was| ==> was[t].account < accounts
    ensures |Surviving(was, w)| <= |was|
    ensures forall t :: 0 <= t < |Surviving(was, w)| ==> Surviving(was, w)[t].account < accounts
  {
    hide SurvivesDay;
    SurvivingFrom(was, w);
    forall t | 0 <= t < |Surviving(was, w)|
      ensures Surviving(was, w)[t].account < accounts
    {
      assert Surviving(was, w)[t] in was;
    }
  }

  lemma SurvivorsDistinct(was: seq<Trade>, w: Window, index: map<U64, nat>)
    requires TradesIndexed(was, index)
    ensures DistinctIds(Surviving(was, w))
  {
    SurvivingDistinct(was, w);
  }

  lemma ListFacts(rows: seq<Trade>, next: seq<nat>, first: seq<nat>, chains: seq<seq<nat>>, a: nat)
    requires Lists(rows, next, first, chains) && a < |first|
    ensures |next| == |rows| < NIL && |chains| == |first| && ListOf(rows, next, first[a], a, chains[a])
    ensures forall t :: 0 <= t < |rows| ==> rows[t].account < |first|
  {
  }

  lemma IndexKept(rows: seq<Trade>, index: map<U64, nat>, t: nat, to: nat)
    requires TradesIndexed(rows, index) && t < |rows|
    ensures TradesIndexed(rows[t := rows[t].(account := to)], index)
  {
  }

  // ---------------------------------------------------------------- an order turned round

  function Struck(id: U64, state: TradeState, date: Date): Trade {
    Trade(id, id, 0, 0, 1, 0, 0, date, BUY, state)
  }

  /** Three trades of one account, the first of them finished. */
  function ThreeTrades(): seq<Trade> {
    [Struck(1, Settled, 1), Struck(2, Executed, 2), Struck(3, Executed, 2)]
  }

  lemma Edges()
    ensures NextState(Executed, Allocate) == Allocated && NextState(Allocated, Net) == Netted
    ensures NextState(Netted, Settle) == Settled
  {
  }

  method StrikeThree() returns (table: TradeTable)
    ensures fresh(table) && table.Valid() && |table.first| == 1 && table.rows == ThreeTrades()
    ensures table.chains == [[2, 1, 0]]
  {
    hide TradeTable.Valid, NextState;
    Edges();
    table := new TradeTable();
    table.AddAccount();
    table.Push(Struck(1, Executed, 1));
    table.Push(Struck(2, Executed, 2));
    assert table.chains[0] == [1, 0];
    table.Push(Struck(3, Executed, 2));
    assert table.chains[0] == [2, 1, 0];
    table.Advance(0, Allocate);
    table.Advance(0, Net);
    table.Advance(0, Settle);
    assert table.rows[0] == Struck(1, Settled, 1);
  }

  lemma LastTwoSurvive(w: Window)
    requires w == Window(2, 3, 4)
    ensures Surviving(ThreeTrades(), w) == ThreeTrades()[1..]
  {
    var ts := ThreeTrades();
    assert ts[..2][..1] == ts[..1] && ts[..1][..0] == [];
    assert Surviving(ts[..1], w) == [];
    assert Surviving(ts[..2], w) == [ts[1]];
  }

  lemma TwoInOrder(c: seq<nat>, rows: seq<Trade>, next: seq<nat>, head: nat)
    requires |rows| == 2 && rows[0].account == rows[1].account == 0 && ListOf(rows, next, head, 0, c) && Ascending(c)
    ensures c == [0, 1]
  {
    assert 0 in c && 1 in c;
    SameAscending(c, [0, 1]);
  }

  /** Executions put the newest trade first; a compaction that drops an old one puts the oldest first. One account
      strikes three trades; the first is settled and its date passes. Before, its list leads from trade 3 to trade 2;
      after, from trade 2 to trade 3. */
  method OrderTurned() returns (before: seq<U64>, after: seq<U64>)
    ensures before == [3, 2, 1] && after == [2, 3]
  {
    hide TradeTable.Valid, Surviving, Ascending, OrderKept, Remaining;
    var table := StrikeThree();
    before := table.Ids(0);
    LastTwoSurvive(Window(2, 3, 4));
    var _ := table.Compact(Window(2, 3, 4));
    table.ListHere(0);
    TwoInOrder(table.chains[0], table.rows, table.next, table.first[0]);
    after := table.Ids(0);
  }
}
