/** Replaying a log of events: the ledger it leads to and the outputs it stages on the way. */
module EventLog {
  import opened Bytes
  import opened Status
  import SegmentReading
  import opened Outboxes
  import opened Ledgers
  import opened Applying
  import opened Footprints
  import opened Updates

  const LIMIT := 0x1_0000_0000_0000_0000

  /** Decoding of a payload by its template number. */
  type Decoder = (U16, seq<Byte>) -> Event

  function Events(decode: Decoder, es: seq<SegmentReading.Entry>): (r: seq<Event>)
    ensures |r| == |es|
  {
    seq(|es|, i requires 0 <= i < |es| => decode(es[i].record.tmpl, es[i].record.payload))
  }

  function OutputsAt(lsn: U64, us: seq<PositionUpdate>): (r: seq<Output>)
    ensures |r| == |us| && forall i :: 0 <= i < |r| ==> r[i].lsn == lsn && |r[i].bytes| == 32
  {
    seq(|us|, i requires 0 <= i < |us| => Output(lsn, ReadModelUpdate, UpdateBytes(us[i])))
  }

  /** Everything staged by a run from LSN `lsn` on, until its first fatal event. */
  function OutputsOf(d: Ledger, lsn: nat, es: seq<Event>): seq<Output>
    requires WellFormed(d) && lsn + |es| <= LIMIT
    decreases |es|
  {
    if es == [] then []
    else
      var a := Apply(d, lsn, es[0]);
      OutputsAt(lsn, a.outs) + if IsFatal(a.st) then [] else OutputsOf(a.d, lsn + 1, es[1..])
  }

  /** One more event at the end of a run that met nothing fatal. */
  lemma {:induction false} RunSnoc(d: Ledger, lsn: nat, es: seq<Event>, e: Event)
    requires WellFormed(d) && !IsFatal(Run(d, lsn, es).st)
    ensures var a := Apply(Run(d, lsn, es).d, lsn + |es|, e);
            Run(d, lsn, es + [e]) == Ran(a.d, if IsFatal(a.st) then a.st else Ok)
    decreases |es|
  {
    hide WellFormed, Apply, IsFatal;
    var all := es + [e];
    var a := Apply(d, lsn, all[0]);
    if es == [] {
      assert all[0] == e && all[1..] == [];
      assert Run(a.d, lsn + 1, []) == Ran(a.d, Ok);
    } else {
      assert all[0] == es[0] && all[1..] == es[1..] + [e];
      RunSnoc(a.d, lsn + 1, es[1..], e);
    }
  }

  lemma {:induction false} OutputsSnoc(d: Ledger, lsn: nat, es: seq<Event>, e: Event)
    requires WellFormed(d) && lsn + |es| < LIMIT && !IsFatal(Run(d, lsn, es).st)
    ensures var a := Apply(Run(d, lsn, es).d, lsn + |es|, e);
            OutputsOf(d, lsn, es + [e]) == OutputsOf(d, lsn, es) + OutputsAt(lsn + |es|, a.outs)
    decreases |es|
  {
    hide WellFormed, Apply, IsFatal, OutputsAt;
    var all := es + [e];
    var a := Apply(d, lsn, all[0]);
    if es == [] {
      assert all[0] == e && all[1..] == [];
      assert OutputsOf(a.d, lsn + 1, []) == [];
    } else {
      assert all[0] == es[0] && all[1..] == es[1..] + [e];
      OutputsSnoc(a.d, lsn + 1, es[1..], e);
      Regroup(OutputsAt(lsn, a.outs), OutputsOf(a.d, lsn + 1, es[1..]),
              OutputsAt(lsn + |es|, Apply(Run(d, lsn, es).d, lsn + |es|, e).outs));
    }
  }

  lemma Regroup(a: seq<Output>, b: seq<Output>, c: seq<Output>)
    ensures a + (b + c) == (a + b) + c
  {
  }

  lemma NoOutputs(d: Ledger, lsn: nat)
    requires WellFormed(d) && lsn <= LIMIT
    ensures OutputsOf(d, lsn, []) == []
  {
    hide WellFormed;
  }

  /** The outputs of the first event, then those of the rest. */
  lemma OutputsStep(d: Ledger, lsn: nat, es: seq<Event>)
    requires WellFormed(d) && lsn + |es| <= LIMIT && es != []
    ensures var a := Apply(d, lsn, es[0]);
            OutputsOf(d, lsn, es)
            == OutputsAt(lsn, a.outs) + if IsFatal(a.st) then [] else OutputsOf(a.d, lsn + 1, es[1..])
  {
    hide WellFormed, Apply;
  }

  /** The first `n` events stage the first outputs; all later outputs bear later LSNs. */
  lemma {:induction false} OutputsPrefix(d: Ledger, lsn: nat, es: seq<Event>, n: nat)
    requires WellFormed(d) && lsn + |es| <= LIMIT && n <= |es|
    ensures var first, all := OutputsOf(d, lsn, es[..n]), OutputsOf(d, lsn, es);
            && first <= all
            && forall i :: |first| <= i < |all| ==> all[i].lsn >= lsn + n
    decreases |es|
  {
    hide WellFormed, Apply, OutputsOf, OutputsAt;
    if n == 0 {
      assert es[..n] == [];
      NoOutputs(d, lsn);
      OutputsFrom(d, lsn, es);
    } else {
      var a := Apply(d, lsn, es[0]);
      assert es[..n][0] == es[0] && es[..n][1..] == es[1..][..n - 1];
      OutputsStep(d, lsn, es);
      OutputsStep(d, lsn, es[..n]);
      if !IsFatal(a.st) {
        OutputsPrefix(a.d, lsn + 1, es[1..], n - 1);
      }
    }
  }

  lemma {:induction false} OutputsFrom(d: Ledger, lsn: nat, es: seq<Event>)
    requires WellFormed(d) && lsn + |es| <= LIMIT
    ensures forall i :: 0 <= i < |OutputsOf(d, lsn, es)| ==> OutputsOf(d, lsn, es)[i].lsn >= lsn
    decreases |es|
  {
    hide WellFormed, Apply;
    if es != [] {
      var a := Apply(d, lsn, es[0]);
      if !IsFatal(a.st) {
        OutputsFrom(a.d, lsn + 1, es[1..]);
      }
    }
  }

  // ---------------------------------------------------------------- what the outputs say

  /** This output of the event at `lsn` tells what its owner then has free, and at what average price. */
  ghost predicate OutputTells(o: Output, lsn: nat, d: Ledger, e: Event)
    requires WellFormed(d) && Announced(e)
  {
    var b := BalancesOf(d, Holder(e), Paper(e));
    o.lsn == lsn && o.kind == ReadModelUpdate && Reads(o.bytes, Holder(e), b.available, b.avgPrice, Paper(e))
  }

  /** The outputs of a run, told from the ledgers it passes through: one for every execution, settlement and corporate
      action accepted, in order, and no other. */
  ghost predicate OutputsTold(d: Ledger, lsn: nat, es: seq<Event>, outs: seq<Output>)
    requires WellFormed(d)
    decreases |es|
  {
    if es == [] then outs == []
    else
      var a := Apply(d, lsn, es[0]);
      var spoken := a.st == Ok && Announced(es[0]);
      && (spoken ==> outs != [] && OutputTells(outs[0], lsn, a.d, es[0]))
      && var rest := if spoken then outs[1..] else outs;
         if IsFatal(a.st) then rest == [] else OutputsTold(a.d, lsn + 1, es[1..], rest)
  }

  lemma OneTells(d: Ledger, lsn: U64, e: Event)
    requires WellFormed(d)
    ensures var a := Apply(d, lsn, e);
            var outs := OutputsAt(lsn, a.outs);
            if a.st == Ok && Announced(e) then |outs| == 1 && OutputTells(outs[0], lsn, a.d, e) else outs == []
  {
    hide WellFormed, BalancesOf, Dispatch, Reads;
    UpdateTells(d, e);
    var r := Dispatch(d, e);
    if r.st == Ok && Announced(e) {
      SameBooks(r.d, Apply(d, lsn, e).d, Holder(e), Paper(e));
      UpdateReads(r.outs[0]);
    }
  }

  /** What a run stages is that. */
  lemma {:induction false} OutputsAreTold(d: Ledger, lsn: nat, es: seq<Event>)
    requires WellFormed(d) && lsn + |es| <= LIMIT
    ensures OutputsTold(d, lsn, es, OutputsOf(d, lsn, es))
    decreases |es|
  {
    hide WellFormed, Apply, OutputTells, OutputsAt, IsFatal, Announced;
    if es != [] {
      var a := Apply(d, lsn, es[0]);
      var outs := OutputsOf(d, lsn, es);
      OneTells(d, lsn, es[0]);
      OkGoesOn(a.st);
      var rest := if IsFatal(a.st) then [] else OutputsOf(a.d, lsn + 1, es[1..]);
      assert outs == OutputsAt(lsn, a.outs) + rest;
      if a.st == Ok && Announced(es[0]) {
        assert outs[1..] == rest && outs[0] == OutputsAt(lsn, a.outs)[0];
      } else {
        assert outs == rest;
      }
      if !IsFatal(a.st) {
        OutputsAreTold(a.d, lsn + 1, es[1..]);
      }
    }
  }

  lemma OkGoesOn(st: Err)
    ensures st == Ok ==> !IsFatal(st)
  {
  }
}
