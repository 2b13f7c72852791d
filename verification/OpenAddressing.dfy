/** Tables probed one slot after the other behave as maps, for every hash function. */
module OpenAddressing {
  import opened Bytes
  import Calendar
  import opened Idempotency

  // ---------------------------------------------------------------- probing

  /** The slot `p` steps on from `start`, around a table of `cap` slots. */
  function Step(start: nat, p: nat, cap: nat): (s: nat)
    requires start < cap && p <= cap
    ensures s < cap
  {
    if start + p < cap then start + p else start + p - cap
  }

  /** How many steps lead from `start` to slot `i`. */
  function Steps(start: nat, i: nat, cap: nat): (p: nat)
    requires start < cap && i < cap
    ensures p < cap && Step(start, p, cap) == i
  {
    if i >= start then i - start else i + cap - start
  }

  lemma StepsBack(start: nat, p: nat, cap: nat)
    requires start < cap && p < cap
    ensures Steps(start, Step(start, p, cap), cap) == p
  {
  }

  /** Where probing for a key begins. */
  type Hash<!K> = K -> nat

  function Start<K>(hash: Hash<K>, k: K, cap: nat): (s: nat)
    requires cap > 0
    ensures s < cap
  {
    hash(k) % cap
  }

  /** Slot `i` is reached from the beginning of its key's path over used slots only. */
  ghost predicate Reached<K>(hash: Hash<K>, keys: seq<K>, used: seq<bool>, i: nat)
    requires i < |keys| == |used|
  {
    var start := Start(hash, keys[i], |keys|);
    forall q :: 0 <= q < Steps(start, i, |keys|) ==> used[Step(start, q, |keys|)]
  }

  /** `place` says in which slot each key is: every used slot holds a key at its place, on a path without holes. */
  ghost predicate Table<K>(hash: Hash<K>, keys: seq<K>, used: seq<bool>, place: map<K, nat>) {
    && |keys| == |used|
    && (forall k :: k in place ==> place[k] < |keys| && used[place[k]] && keys[place[k]] == k)
    && (forall i :: 0 <= i < |keys| && used[i] ==>
          keys[i] in place && place[keys[i]] == i && Reached(hash, keys, used, i))
  }

  /** The first `p` slots of the path of `k` are used, by other keys. */
  ghost predicate Passed<K(!new)>(hash: Hash<K>, keys: seq<K>, used: seq<bool>, k: K, p: nat) {
    && 0 < |keys| == |used| && p <= |keys|
    && forall q :: 0 <= q < p ==> var s := Step(Start(hash, k, |keys|), q, |keys|); used[s] && keys[s] != k
  }

  /** A hole on the path, or the whole table passed: the key is nowhere. */
  lemma NotThere<K(!new)>(hash: Hash<K>, keys: seq<K>, used: seq<bool>, place: map<K, nat>, k: K, p: nat)
    requires Table(hash, keys, used, place) && Passed(hash, keys, used, k, p)
    requires p == |keys| || !used[Step(Start(hash, k, |keys|), p, |keys|)]
    ensures k !in place
  {
    if k in place {
      OnPath(hash, keys, used, place, k);
      assert false;
    }
  }

  /** A key in the table lies on its path, after used slots only. */
  lemma OnPath<K(!new)>(hash: Hash<K>, keys: seq<K>, used: seq<bool>, place: map<K, nat>, k: K)
    requires Table(hash, keys, used, place) && k in place
    ensures 0 < |keys| && place[k] < |keys|
    ensures var start := Start(hash, k, |keys|);
            var d := Steps(start, place[k], |keys|);
            && keys[Step(start, d, |keys|)] == k && used[Step(start, d, |keys|)]
            && forall q :: 0 <= q < d ==> used[Step(start, q, |keys|)]
  {
    assert Reached(hash, keys, used, place[k]);
  }

  function UsedSlots(used: seq<bool>): set<nat> {
    set i | 0 <= i < |used| && used[i]
  }

  /** A key put in the first hole of its path keeps the table a table. */
  lemma PutKeeps<K(!new)>(hash: Hash<K>, keys: seq<K>, used: seq<bool>, place: map<K, nat>, k: K, p: nat)
    requires Table(hash, keys, used, place) && Passed(hash, keys, used, k, p) && p < |keys|
    requires !used[Step(Start(hash, k, |keys|), p, |keys|)]
    ensures var i := Step(Start(hash, k, |keys|), p, |keys|);
            && Table(hash, keys[i := k], used[i := true], place[k := i])
            && UsedSlots(used[i := true]) == UsedSlots(used) + {i} && i !in UsedSlots(used)
            && k !in place && forall x :: x in place ==> place[x] != i
  {
    NotThere(hash, keys, used, place, k, p);
    var start := Start(hash, k, |keys|);
    var i := Step(start, p, |keys|);
    var keys', used' := keys[i := k], used[i := true];
    forall j | 0 <= j < |keys| && used'[j]
      ensures Reached(hash, keys', used', j)
    {
      if j == i {
        StepsBack(start, p, |keys|);
      } else {
        assert Reached(hash, keys, used, j);
      }
    }
  }

  /** When every slot of the path was used, every slot of the table is. */
  lemma AllUsed<K(!new)>(hash: Hash<K>, keys: seq<K>, used: seq<bool>, k: K)
    requires Passed(hash, keys, used, k, |keys|)
    ensures |UsedSlots(used)| == |keys|
  {
    var start := Start(hash, k, |keys|);
    forall i | 0 <= i < |keys|
      ensures used[i]
    {
      assert used[Step(start, Steps(start, i, |keys|), |keys|)];
    }
    assert UsedSlots(used) == Below(|keys|);
  }

  function Below(n: nat): (s: set<nat>)
    ensures |s| == n && forall i: nat :: i in s <==> i < n
  {
    if n == 0 then {}
    else
      var b := Below(n - 1);
      assert n - 1 !in b;
      b + {n - 1}
  }

  // ---------------------------------------------------------------- 64-bit keys to 32-bit values

  const EMPTY := 0xFFFF_FFFF

  /** A slot is used unless its value says it is empty. */
  function Filled(vals: seq<nat>): (s: seq<bool>)
    ensures |s| == |vals| && forall i :: 0 <= i < |vals| ==> s[i] == (vals[i] != EMPTY)
  {
    seq(|vals|, i requires 0 <= i < |vals| => vals[i] != EMPTY)
  }

  /** After a key and its value were written, the table has one more. */
  lemma PutDone(hash: Hash<U64>, keys: seq<U64>, vals: seq<nat>, place: map<U64, nat>, key: U64, value: nat, i: nat,
                p: nat)
    requires p < |keys| == |vals| && Table(hash, keys, Filled(vals), place) && Passed(hash, keys, Filled(vals), key, p)
    requires i == Step(Start(hash, key, |keys|), p, |keys|) && vals[i] == EMPTY != value && key !in place
    ensures Table(hash, keys[i := key], Filled(vals[i := value]), place[key := i])
    ensures |UsedSlots(Filled(vals[i := value]))| == |UsedSlots(Filled(vals))| + 1
    ensures |place[key := i]| == |place| + 1 && forall x :: x in place ==> place[x] != i
  {
    hide Table, Passed, Start;
    PutKeeps(hash, keys, Filled(vals), place, key, p);
    assert Filled(vals[i := value]) == Filled(vals)[i := true];
    assert place[key := i].Keys == place.Keys + {key};
  }

  class DenseIndex {
    const hash: Hash<U64>
    const keys: array<U64>
    const vals: array<nat>
    var size: nat
    ghost var place: map<U64, nat>

    ghost function Used(): (s: seq<bool>)
      reads vals
    {
      Filled(vals[..])
    }

    ghost predicate Valid()
      reads this, keys, vals
    {
      && keys.Length == vals.Length > 0
      && Table(hash, keys[..], Used(), place)
      && size == |UsedSlots(Used())| == |place|
    }

    /** The map the table stands for. */
    ghost function Map(): (m: map<U64, nat>)
      requires Valid()
      reads this, keys, vals
      ensures m.Keys == place.Keys && |m| == |place| && forall k :: k in place ==> m[k] == vals[place[k]]
    {
      var m := map k | k in place :: vals[place[k]];
      assert m.Keys == place.Keys;
      m
    }

    constructor (hash: Hash<U64>, maxElements: nat)
      ensures Valid() && Map() == map[] && fresh(keys) && fresh(vals)
      ensures keys.Length == TableSize(maxElements) && this.hash == hash
    {
      this.hash := hash;
      var cap := TableSize(maxElements);
      keys := new U64[cap](_ => 0);
      vals := new nat[cap](_ => EMPTY);
      size := 0;
      place := map[];
      new;
      assert UsedSlots(Used()) == {};
    }

    /** Probes until the key or a hole is met. */
    method Find(key: U64) returns (v: nat)
      requires Valid()
      ensures v == if key in Map() then Map()[key] else EMPTY
    {
      var cap := keys.Length;
      var i := Start(hash, key, cap);
      var p := 0;
      while p < cap
        invariant p <= cap && (p < cap ==> i == Step(Start(hash, key, cap), p, cap))
        invariant Passed(hash, keys[..], Used(), key, p)
      {
        if vals[i] == EMPTY {
          NotThere(hash, keys[..], Used(), place, key, p);
          return EMPTY;
        }
        if keys[i] == key {
          return vals[i];
        }
        i := if i + 1 < cap then i + 1 else 0;
        p := p + 1;
      }
      NotThere(hash, keys[..], Used(), place, key, p);
      return EMPTY;
    }

    /** The slot of the key, or the first hole on its path, or word that there is neither. */
    method Probe(key: U64) returns (i: nat, ghost p: nat)
      requires Valid()
      ensures i <= keys.Length
      ensures i < keys.Length && vals[i] != EMPTY ==> key in place && place[key] == i
      ensures i < keys.Length && vals[i] == EMPTY ==>
                p < keys.Length && i == Step(Start(hash, key, keys.Length), p, keys.Length)
                && Passed(hash, keys[..], Used(), key, p) && key !in place
      ensures i == keys.Length ==> key !in place && |UsedSlots(Used())| == keys.Length
    {
      var cap := keys.Length;
      i, p := Start(hash, key, cap), 0;
      var left := cap;
      while left > 0
        invariant p + left == cap && (left > 0 ==> i == Step(Start(hash, key, cap), p, cap))
        invariant Passed(hash, keys[..], Used(), key, p)
      {
        if vals[i] == EMPTY {
          NotThere(hash, keys[..], Used(), place, key, p);
          return;
        }
        if keys[i] == key {
          return;
        }
        i := if i + 1 < cap then i + 1 else 0;
        p, left := p + 1, left - 1;
      }
      NotThere(hash, keys[..], Used(), place, key, p);
      AllUsed(hash, keys[..], Used(), key);
      return cap, p;
    }

    /** Inserts a new key, returns the value of a known one, or refuses from seven tenths up. */
    method InsertOrGet(key: U64, value: nat) returns (v: nat, inserted: bool)
      requires Valid() && value != EMPTY
      modifies `size, `place, keys, vals
      ensures Valid() && inserted == (key !in old(Map()) && 10 * old(size) < 7 * keys.Length)
      ensures v == if key in old(Map()) then old(Map())[key] else if inserted then value else EMPTY
      ensures Map() == if inserted then old(Map())[key := value] else old(Map())
      ensures size == old(size) + (if inserted then 1 else 0) == |Map()|
    {
      var i;
      ghost var p;
      i, p := Probe(key);
      if i == keys.Length {
        return EMPTY, false;
      }
      if vals[i] != EMPTY {
        return vals[i], false;
      }
      if 10 * size >= 7 * keys.Length {
        return EMPTY, false;
      }
      Put(key, value, i, p);
      return value, true;
    }

    method Put(key: U64, value: nat, i: nat, ghost p: nat)
      requires Valid() && value != EMPTY && i < keys.Length && vals[i] == EMPTY && key !in place
      requires p < keys.Length && i == Step(Start(hash, key, keys.Length), p, keys.Length)
      requires Passed(hash, keys[..], Used(), key, p)
      modifies `size, `place, keys, vals
      ensures Valid() && size == old(size) + 1 && Map() == old(Map())[key := value]
    {
      hide Table, Passed, UsedSlots, Start, Step, Map, Filled;
      ghost var was := keys[..];
      PutDone(hash, was, vals[..], place, key, value, i, p);
      keys[i], vals[i] := key, value;
      size := size + 1;
      place := place[key := i];
      assert vals[..] == old(vals[..])[i := value] && keys[..] == was[i := key];
    }

    method Clear()
      requires Valid()
      modifies `size, `place, keys, vals
      ensures Valid() && Map() == map[]
    {
      var i := 0;
      while i < keys.Length
        invariant 0 <= i <= keys.Length
        invariant forall j :: 0 <= j < i ==> vals[j] == EMPTY
      {
        keys[i], vals[i] := 0, EMPTY;
        i := i + 1;
      }
      size, place := 0, map[];
      assert UsedSlots(Used()) == {};
    }
  }

  // ---------------------------------------------------------------- room for what was asked for

  /** After creation for `n` elements, any `n` distinct keys go in, under any hash: each gets the next value. */
  method InsertDistinct(hash: Hash<U64>, ks: seq<U64>) returns (t: DenseIndex)
    requires |ks| < EMPTY && forall i, j :: 0 <= i < j < |ks| ==> ks[i] != ks[j]
    ensures t.Valid() && |t.Map()| == |ks|
    ensures forall i :: 0 <= i < |ks| ==> ks[i] in t.Map() && t.Map()[ks[i]] == i
  {
    hide DenseIndex.Valid, DenseIndex.Map, TableSize, Numbers;
    NumbersNone(ks);
    t := new DenseIndex(hash, |ks|);
    var i := 0;
    ghost var m: map<U64, nat> := map[];
    while i < |ks|
      invariant 0 <= i <= |ks| && t.Valid() && fresh(t) && fresh(t.keys) && fresh(t.vals)
      invariant t.keys.Length == TableSize(|ks|) && t.Map() == m && t.size == |m| == i
      invariant Numbers(ks, i, m)
    {
      NumbersNext(ks, i, m);
      var v, inserted := t.InsertOrGet(ks[i], i);
      m := m[ks[i] := i];
      i := i + 1;
    }
    NumbersAll(ks, m);
  }

  /** The first `i` keys, each mapped to its number. */
  ghost predicate Numbers(ks: seq<U64>, i: nat, m: map<U64, nat>) {
    && i <= |ks|
    && (forall k :: k in m ==> m[k] < i && ks[m[k]] == k)
    && (forall j :: 0 <= j < i ==> ks[j] in m && m[ks[j]] == j)
  }

  lemma NumbersNone(ks: seq<U64>)
    ensures Numbers(ks, 0, map[])
  {
  }

  lemma NumbersNext(ks: seq<U64>, i: nat, m: map<U64, nat>)
    requires Numbers(ks, i, m) && i < |ks| && forall i, j :: 0 <= i < j < |ks| ==> ks[i] != ks[j]
    ensures ks[i] !in m && Numbers(ks, i + 1, m[ks[i] := i])
  {
  }

  lemma NumbersAll(ks: seq<U64>, m: map<U64, nat>)
    requires Numbers(ks, |ks|, m)
    ensures forall i :: 0 <= i < |ks| ==> ks[i] in m && m[ks[i]] == i
  {
  }

  // ---------------------------------------------------------------- pairs

  datatype Insertion = Inserted | Present | Overflow

  /** A set of pairs, compared exactly; only the probing mixes them. */
  class PairIndex {
    const hash: Hash<AppliedKey>
    const pairs: array<AppliedKey>
    const used: array<bool>
    var size: nat
    ghost var place: map<AppliedKey, nat>

    ghost predicate Valid()
      reads this, pairs, used
    {
      && pairs.Length == used.Length > 0
      && Table(hash, pairs[..], used[..], place)
      && size == |UsedSlots(used[..])| == |place|
    }

    constructor (hash: Hash<AppliedKey>, maxElements: nat)
      ensures Valid() && place == map[] && fresh(pairs) && fresh(used)
      ensures pairs.Length == TableSize(maxElements) && this.hash == hash
    {
      this.hash := hash;
      var cap := TableSize(maxElements);
      pairs := new AppliedKey[cap](_ => AppliedKey(0, 0));
      used := new bool[cap](_ => false);
      size, place := 0, map[];
      new;
      assert UsedSlots(used[..]) == {};
    }

    method Probe(key: AppliedKey) returns (i: nat, ghost p: nat)
      requires Valid()
      ensures i <= pairs.Length
      ensures i < pairs.Length && used[i] ==> key in place && place[key] == i
      ensures i < pairs.Length && !used[i] ==>
                p < pairs.Length && i == Step(Start(hash, key, pairs.Length), p, pairs.Length)
                && Passed(hash, pairs[..], used[..], key, p) && key !in place
      ensures i == pairs.Length ==> key !in place && |UsedSlots(used[..])| == pairs.Length
    {
      var cap := pairs.Length;
      i, p := Start(hash, key, cap), 0;
      var left := cap;
      while left > 0
        invariant p + left == cap && (left > 0 ==> i == Step(Start(hash, key, cap), p, cap))
        invariant Passed(hash, pairs[..], used[..], key, p)
      {
        if !used[i] {
          NotThere(hash, pairs[..], used[..], place, key, p);
          return;
        }
        if pairs[i] == key {
          return;
        }
        i := if i + 1 < cap then i + 1 else 0;
        p, left := p + 1, left - 1;
      }
      NotThere(hash, pairs[..], used[..], place, key, p);
      AllUsed(hash, pairs[..], used[..], key);
      return cap, p;
    }

    method Contains(key: AppliedKey) returns (r: bool)
      requires Valid()
      ensures r == (key in place.Keys)
    {
      var i;
      ghost var p;
      i, p := Probe(key);
      return i < pairs.Length && used[i];
    }

    /** A pair already present and a table without room are told apart. */
    method Insert(key: AppliedKey) returns (r: Insertion)
      requires Valid()
      modifies `size, `place, pairs, used
      ensures Valid() && r == if key in old(place).Keys then Present
                              else if 10 * old(size) < 7 * pairs.Length then Inserted else Overflow
      ensures place.Keys == if r == Inserted then old(place).Keys + {key} else old(place).Keys
      ensures size == |place| == old(size) + if r == Inserted then 1 else 0
    {
      var i;
      ghost var p;
      i, p := Probe(key);
      if i == pairs.Length {
        return Overflow;
      }
      if used[i] {
        return Present;
      }
      if 10 * size >= 7 * pairs.Length {
        return Overflow;
      }
      Put(key, i, p);
      return Inserted;
    }

    method Put(key: AppliedKey, i: nat, ghost p: nat)
      requires Valid() && i < pairs.Length && !used[i] && key !in place
      requires p < pairs.Length && i == Step(Start(hash, key, pairs.Length), p, pairs.Length)
      requires Passed(hash, pairs[..], used[..], key, p)
      modifies `size, `place, pairs, used
      ensures Valid() && size == old(size) + 1 && place == old(place)[key := i]
    {
      PutKeeps(hash, pairs[..], used[..], place, key, p);
      ghost var was := used[..];
      pairs[i], used[i] := key, true;
      assert used[..] == was[i := true];
      size := size + 1;
      place := place[key := i];
    }

    method Clear()
      requires Valid()
      modifies `size, `place, pairs, used
      ensures Valid() && place == map[] && size == 0
    {
      var i := 0;
      while i < pairs.Length
        invariant 0 <= i <= pairs.Length
        invariant forall j :: 0 <= j < i ==> !used[j]
      {
        pairs[i], used[i] := AppliedKey(0, 0), false;
        i := i + 1;
      }
      size, place := 0, map[];
      assert UsedSlots(used[..]) == {};
    }
  }

  /** Two tables that take turns. */
  class TwoGenSet {
    const gen0: PairIndex
    const gen1: PairIndex
    var current: bool
    var rotation: nat

    ghost predicate Valid()
      reads this, gen0, gen1, gen0.pairs, gen0.used, gen1.pairs, gen1.used
    {
      && gen0 != gen1 && gen0.pairs != gen1.pairs && gen0.used != gen1.used
      && gen0.Valid() && gen1.Valid() && gen0.pairs.Length == gen1.pairs.Length
    }

    ghost function View(): TwoGen
      reads this, gen0, gen1
    {
      TwoGen(gen0.place.Keys, gen1.place.Keys, current, rotation)
    }

    constructor (hash: Hash<AppliedKey>, maxPerGeneration: nat)
      ensures Valid() && View() == Empty() && gen0.pairs.Length == TableSize(maxPerGeneration)
    {
      gen0 := new PairIndex(hash, maxPerGeneration);
      gen1 := new PairIndex(hash, maxPerGeneration);
      current, rotation := false, 0;
    }

    method Contains(key: AppliedKey) returns (r: bool)
      requires Valid()
      ensures r == Idempotency.Contains(View(), key)
    {
      hide PairIndex.Valid;
      var a := gen0.Contains(key);
      var b := gen1.Contains(key);
      return a || b;
    }

    /** Refused when either generation has it, written to the current one otherwise. */
    method Insert(key: AppliedKey) returns (r: Insertion)
      requires Valid()
      modifies gen0, gen1, gen0.pairs, gen0.used, gen1.pairs, gen1.used
      ensures Valid()
      ensures match Idempotency.Insert(old(View()), key, gen0.pairs.Length)
              case New(after) => r == Inserted && View() == after
              case Duplicate => r == Present && View() == old(View())
              case Full => r == Overflow && View() == old(View())
    {
      hide PairIndex.Valid;
      var known := Contains(key);
      if known {
        return Present;
      }
      r := WriteCurrent(key);
    }

    method WriteCurrent(key: AppliedKey) returns (r: Insertion)
      requires Valid() && key !in View().gen0 && key !in View().gen1
      modifies gen0, gen1, gen0.pairs, gen0.used, gen1.pairs, gen1.used
      ensures Valid() && r != Present
      ensures r == Inserted <==> 10 * |if current then old(View()).gen1 else old(View()).gen0| < 7 * gen0.pairs.Length
      ensures View() == if r != Inserted then old(View())
                        else if current then old(View()).(gen1 := old(View()).gen1 + {key})
                        else old(View()).(gen0 := old(View()).gen0 + {key})
    {
      hide PairIndex.Valid;
      SizeIsCount(gen0);
      SizeIsCount(gen1);
      if current {
        r := gen1.Insert(key);
      } else {
        r := gen0.Insert(key);
      }
    }

    method MaybeRotate(today: nat, window: int)
      requires Valid()
      modifies this, gen0, gen1, gen0.pairs, gen0.used, gen1.pairs, gen1.used
      ensures Valid() && View() == Idempotency.MaybeRotate(old(View()), today, window)
    {
      hide PairIndex.Valid;
      if rotation == 0 {
        rotation := today;
        return;
      }
      if Calendar.DayIndex(today) - Calendar.DayIndex(rotation) < window {
        return;
      }
      current := !current;
      if current {
        gen1.Clear();
      } else {
        gen0.Clear();
      }
      rotation := today;
    }
  }

  lemma SizeIsCount(t: PairIndex)
    requires t.Valid()
    ensures t.size == |t.place.Keys|
  {
    assert |t.place| == |t.place.Keys|;
  }
}
