/** How an image is laid out in bytes: aligned sections, each with its checksum. */
module ImageBytes {
  import opened Bytes
  import opened Status
  import WalFormat

  /** `count` elements of `elem` bytes. */
  datatype Section = Section(elem: nat, count: nat, data: seq<Byte>)

  datatype SectionRef = SectionRef(off: nat, elem: nat, count: nat, crc: U32)

  predicate Shaped(s: Section) {
    |s.data| == s.elem * s.count
  }

  /** Where the next section starts. */
  function After(off: nat, n: nat): (r: nat)
    ensures r >= off + n
  {
    WalFormat.Pad8(off + n)
  }

  function CrcOf(cs: Checksum, data: seq<Byte>): U32 {
    if data == [] then 0 else cs(data)
  }

  function Refs(cs: Checksum, ss: seq<Section>, off: nat): (r: seq<SectionRef>)
    ensures |r| == |ss|
  {
    if ss == [] then []
    else
      [SectionRef(off, ss[0].elem, ss[0].count, CrcOf(cs, ss[0].data))] + Refs(cs, ss[1..], After(off, |ss[0].data|))
  }

  function EndAfter(ss: seq<Section>, off: nat): (r: nat)
    ensures r >= off
  {
    if ss == [] then off else EndAfter(ss[1..], After(off, |ss[0].data|))
  }

  /** The image holds every section at its place. */
  ghost predicate HoldsAll(m: seq<Byte>, ss: seq<Section>, off: nat) {
    ss != [] ==> Holds(m, off, ss[0].data) && HoldsAll(m, ss[1..], After(off, |ss[0].data|))
  }

  /** Sections copied one after the other into a zeroed buffer, whose first `header` bytes are left for the header. */
  method SaveSections(ss: seq<Section>, header: nat, room: nat) returns (st: Err, out: seq<Byte>)
    ensures st == if room < EndAfter(ss, header) then OutOfRange else Ok
    ensures st == Ok ==> |out| == EndAfter(ss, header) && HoldsAll(out, ss, header)
  {
    var off, k := header, 0;
    while k < |ss|
      invariant 0 <= k <= |ss| && EndAfter(ss[k..], off) == EndAfter(ss, header)
    {
      assert ss[k..][0] == ss[k] && ss[k..][1..] == ss[k + 1..];
      off := After(off, |ss[k].data|);
      k := k + 1;
    }
    if room < off {
      return OutOfRange, [];
    }
    out := Zeros(off);
    off, k := header, 0;
    while k < |ss|
      invariant 0 <= k <= |ss| && header <= off && EndAfter(ss[k..], off) == EndAfter(ss, header) == |out|
      invariant off == OffsetOf(ss, header, k) && HoldsPart(out, ss, header, k)
    {
      assert ss[k..][0] == ss[k] && ss[k..][1..] == ss[k + 1..];
      EndGrows(ss[k + 1..], After(off, |ss[k].data|));
      HoldsMore(out, ss, header, k);
      out := Splice(out, off, ss[k].data);
      off := After(off, |ss[k].data|);
      k := k + 1;
    }
    HoldsWhole(out, ss, header);
    return Ok, out;
  }

  lemma EndGrows(ss: seq<Section>, off: nat)
    ensures off <= EndAfter(ss, off)
  {
  }

  /** Where section `k` goes. */
  function OffsetOf(ss: seq<Section>, start: nat, k: nat): (r: nat)
    requires k <= |ss|
    ensures r >= start
  {
    if k == 0 then start else After(OffsetOf(ss, start, k - 1), |ss[k - 1].data|)
  }

  /** The first `k` sections are in place. */
  ghost predicate HoldsPart(m: seq<Byte>, ss: seq<Section>, start: nat, k: nat)
    requires k <= |ss|
  {
    k == 0 || (HoldsPart(m, ss, start, k - 1) && Holds(m, OffsetOf(ss, start, k - 1), ss[k - 1].data))
  }

  /** Copying a section after the others disturbs none of them. */
  lemma {:induction false} PartKept(m: seq<Byte>, ss: seq<Section>, start: nat, k: nat, at: nat, b: seq<Byte>)
    requires k <= |ss| && HoldsPart(m, ss, start, k) && OffsetOf(ss, start, k) <= at && at + |b| <= |m|
    ensures HoldsPart(Splice(m, at, b), ss, start, k)
  {
    hide Splice, Holds, After;
    if k > 0 {
      var before, data := OffsetOf(ss, start, k - 1), ss[k - 1].data;
      HoldsInside(m, before, data);
      SpliceKeeps(m, at, b, before, before + |data|);
      HoldsStill(m, Splice(m, at, b), before, data);
      PartKept(m, ss, start, k - 1, at, b);
    }
  }

  lemma HoldsInside(m: seq<Byte>, off: nat, b: seq<Byte>)
    requires Holds(m, off, b)
    ensures off + |b| <= |m|
  {
  }

  lemma HoldsStill(m: seq<Byte>, m2: seq<Byte>, off: nat, b: seq<Byte>)
    requires Holds(m, off, b) && |m2| == |m| && m2[off..off + |b|] == m[off..off + |b|]
    ensures Holds(m2, off, b)
  {
  }

  lemma HoldsMore(m: seq<Byte>, ss: seq<Section>, start: nat, k: nat)
    requires k < |ss| && HoldsPart(m, ss, start, k) && OffsetOf(ss, start, k) + |ss[k].data| <= |m|
    ensures HoldsPart(Splice(m, OffsetOf(ss, start, k), ss[k].data), ss, start, k + 1)
  {
    hide Splice, After;
    PartKept(m, ss, start, k, OffsetOf(ss, start, k), ss[k].data);
    SplicePlaces(m, OffsetOf(ss, start, k), ss[k].data);
  }

  lemma {:induction false} PartIsTail(m: seq<Byte>, ss: seq<Section>, start: nat, k: nat)
    requires k <= |ss| && HoldsPart(m, ss, start, k) && HoldsAll(m, ss[k..], OffsetOf(ss, start, k))
    ensures HoldsAll(m, ss, start)
    decreases k
  {
    if k == 0 {
      assert ss[0..] == ss;
    } else {
      assert ss[k - 1..][0] == ss[k - 1] && ss[k - 1..][1..] == ss[k..];
      PartIsTail(m, ss, start, k - 1);
    }
  }

  lemma HoldsWhole(m: seq<Byte>, ss: seq<Section>, start: nat)
    requires HoldsPart(m, ss, start, |ss|)
    ensures HoldsAll(m, ss, start)
  {
    assert ss[|ss|..] == [];
    PartIsTail(m, ss, start, |ss|);
  }

  // ---------------------------------------------------------------- loading

  datatype Read = Sections(datas: seq<seq<Byte>>) | Bad(err: Err)

  /** What the loader expects of a section, from the counters. */
  datatype Shape = Shape(elem: nat, count: nat)

  /** Each section checked against its expected shape, the bounds and its checksum, then copied. */
  function ReadSections(cs: Checksum, m: seq<Byte>, refs: seq<SectionRef>, shapes: seq<Shape>): Read
    requires |refs| == |shapes|
    decreases |refs|
  {
    if refs == [] then Sections([])
    else
      var r, n := refs[0], refs[0].elem * refs[0].count;
      if r.elem != shapes[0].elem || r.count != shapes[0].count then Bad(StateCorrupt)
      else if n != 0 && r.off + n > |m| then Bad(ShortPayload)
      else if n != 0 && cs(m[r.off..r.off + n]) != r.crc then Bad(BadCrc)
      else
        match ReadSections(cs, m, refs[1..], shapes[1..])
        case Bad(err) => Bad(err)
        case Sections(rest) => Sections([if n == 0 then [] else m[r.off..r.off + n]] + rest)
  }

  function Datas(ss: seq<Section>): seq<seq<Byte>> {
    if ss == [] then [] else [ss[0].data] + Datas(ss[1..])
  }

  function Shapes(ss: seq<Section>): (r: seq<Shape>)
    ensures |r| == |ss|
  {
    if ss == [] then [] else [Shape(ss[0].elem, ss[0].count)] + Shapes(ss[1..])
  }

  /** Every section of a saved image is read back, whatever sections there are and whatever follows them. */
  lemma {:induction false} SectionsBack(cs: Checksum, m: seq<Byte>, ss: seq<Section>, off: nat)
    requires HoldsAll(m, ss, off) && forall i :: 0 <= i < |ss| ==> Shaped(ss[i])
    ensures ReadSections(cs, m, Refs(cs, ss, off), Shapes(ss)) == Sections(Datas(ss))
    decreases |ss|
  {
    hide ReadSections, Holds, After, CrcOf, Shaped;
    if ss == [] {
      NoSections(cs, m);
    } else {
      SectionsBack(cs, m, ss[1..], After(off, |ss[0].data|));
      assert Refs(cs, ss, off)[1..] == Refs(cs, ss[1..], After(off, |ss[0].data|));
      assert Shapes(ss)[1..] == Shapes(ss[1..]);
      SectionRead(cs, m, Refs(cs, ss, off), Shapes(ss), ss[0], off, Datas(ss[1..]));
    }
  }

  lemma NoSections(cs: Checksum, m: seq<Byte>)
    ensures ReadSections(cs, m, [], []) == Sections([])
  {
  }

  /** One section read, with the sections after it. */
  lemma {:induction false} SectionRead(cs: Checksum, m: seq<Byte>, refs: seq<SectionRef>, shapes: seq<Shape>,
                                       s: Section, off: nat, rest: seq<seq<Byte>>)
    requires |refs| == |shapes| > 0 && Shaped(s) && Holds(m, off, s.data)
    requires refs[0] == SectionRef(off, s.elem, s.count, CrcOf(cs, s.data)) && shapes[0] == Shape(s.elem, s.count)
    requires ReadSections(cs, m, refs[1..], shapes[1..]) == Sections(rest)
    ensures ReadSections(cs, m, refs, shapes) == Sections([s.data] + rest)
  {
  }

  /** Whatever the bytes, an accepted section has the length and the checksum its reference announces. */
  lemma {:induction false} SectionsChecked(cs: Checksum, m: seq<Byte>, refs: seq<SectionRef>,
                                           shapes: seq<Shape>, k: nat)
    requires |refs| == |shapes| && k < |refs| && ReadSections(cs, m, refs, shapes).Sections?
    ensures var ds := ReadSections(cs, m, refs, shapes).datas;
            && |ds| == |refs| && |ds[k]| == shapes[k].elem * shapes[k].count
            && (ds[k] != [] ==> cs(ds[k]) == refs[k].crc)
    decreases |refs|
  {
    if |refs| > 1 {
      SectionsChecked(cs, m, refs[1..], shapes[1..], if k == 0 then 0 else k - 1);
    }
  }

  // ---------------------------------------------------------------- 64-bit numbers

  predicate Int64(x: int) {
    -0x8000_0000_0000_0000 <= x < 0x8000_0000_0000_0000
  }

  function ToSigned(u: int): int {
    if u >= 0x8000_0000_0000_0000 then u - 0x1_0000_0000_0000_0000 else u
  }
}
