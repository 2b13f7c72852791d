/** The blocks of the events on the wire, and where the ingress sends them: each to its owner's partition. */
module EventBlocks {
  import opened Bytes
  import opened Calendar
  import opened Applying
  import opened Ingress
  import Independence

  /** What the blocks hold that the ledger does not read. */
  datatype Other = Other(id: U64, figure: int, paper: U32, day: U32, market: Byte, kind: Byte, dayTrade: bool)

  function Signed64(x: int): seq<Byte> {
    Le(8, Wrap64(x))
  }

  function Fee(fees: seq<int>, k: nat): int {
    if k < |fees| then fees[k] else 0
  }

  function OutcomeCode(o: Outcome): nat {
    match o
    case SettledInFull => 1
    case DeliveryFailure => 2
    case BoughtIn => 3
    case UnknownOutcome => 0
  }

  function KindCode(k: ActionKind): nat {
    match k
    case Bonus => 1
    case Split => 2
    case ReverseSplit => 3
    case Subscription => 4
    case LeftoversAuction => 5
    case UnknownAction => 0
  }

  // ---------------------------------------------------------------- field by field

  /** Trade, note, account; quantity, price and four fees; instrument and date; flags, side and market. */
  function ExecutionBlock(x: Execution, o: Other): (s: seq<Byte>)
    ensures |s| == 88
  {
    Le(8, x.id) + Le(8, x.note) + Le(8, x.account)
    + (Signed64(x.qty) + Signed64(x.price) + Signed64(Fee(x.fees, 0)) + Signed64(Fee(x.fees, 1))
       + Signed64(Fee(x.fees, 2)) + Signed64(Fee(x.fees, 3)) + Le(4, x.instrument) + Le(4, x.date)
       + Le(2, (if x.shortFlag then 2 else 0) + if o.dayTrade then 1 else 0) + Le(1, x.side) + Le(1, o.market)
       + Zeros(4))
  }

  /** Allocation, trade, giver, receiver; quantity and money; instrument, date and side. */
  function AllocationBlock(a: Allocation, o: Other): (s: seq<Byte>)
    ensures |s| == 64
  {
    Le(8, o.id) + Le(8, a.trade) + Le(8, a.from)
    + (Le(8, a.to) + Signed64(a.qty) + Signed64(a.cash) + Le(4, o.paper) + Le(4, a.date) + Le(1, a.side) + Zeros(7))
  }

  /** Batch, account; net; date and count. */
  function NettingBlock(account: U64, net: int, date: Date, count: nat, o: Other): (s: seq<Byte>)
    ensures |s| == 32
  {
    Le(8, o.id) + Le(8, account) + (Signed64(net) + Le(4, date) + Le(4, count))
  }

  /** Batch, account; quantity, money and cost; instrument, date, side and outcome. */
  function SettlementBlock(s: Settlement, o: Other): (r: seq<Byte>)
    ensures |r| == 56
  {
    Le(8, o.id) + Le(8, s.account)
    + (Signed64(s.qty) + Signed64(s.cash) + Signed64(s.cost) + Le(4, s.instrument) + Le(4, s.date) + Le(1, s.side)
       + Le(1, OutcomeCode(s.outcome)) + Zeros(6))
  }

  /** Action, account; five figures; instruments, dates and factor; type and flags. */
  function ActionBlock(c: Action, o: Other): (s: seq<Byte>)
    ensures |s| == 88
  {
    Le(8, c.id) + Le(8, c.account)
    + (Signed64(c.qtyDelta) + Signed64(o.figure) + Signed64(c.cashDelta) + Signed64(c.withheld)
       + Signed64(c.unitCost) + Le(4, c.instrument) + Le(4, o.paper) + Le(4, c.exDate) + Le(4, o.day) + Le(4, c.num)
       + Le(4, c.den) + Le(1, KindCode(c.kind)) + Le(1, if c.verify then 1 else 0) + Zeros(6))
  }

  /** Action, account; five figures; instrument and dates; kind and stage. */
  function IncomeBlock(p: Dividend, o: Other): (s: seq<Byte>)
    ensures |s| == 72
  {
    Le(8, p.id) + Le(8, p.account)
    + (Signed64(p.basis) + Signed64(p.rate) + Signed64(p.gross) + Signed64(p.withheld) + Signed64(p.net)
       + Le(4, p.instrument) + Le(4, p.exDate) + Le(4, o.day) + Le(1, o.kind) + Le(1, if p.accrued then 1 else 2)
       + Zeros(2))
  }

  // ---------------------------------------------------------------- its message

  /** This message carries this event: a block of the event's own template, laid out as above for an event of one owner,
      and with whatever payload for one that concerns all. */
  predicate Carries(m: Message, e: Event, o: Other) {
    match e
    case DayOpened(_, _, _, _) => m.tmpl == 1
    case TradeExecuted(x) => m == Message(2, ExecutionBlock(x, o))
    case TradeAllocated(a) => m == Message(3, AllocationBlock(a, o))
    case BatchNetted(account, net, date, count) => m == Message(4, NettingBlock(account, net, date, count, o))
    case TradeSettled(s) => m == Message(5, SettlementBlock(s, o))
    case CorporateActionApplied(c) => m == Message(6, ActionBlock(c, o))
    case DividendPaid(p) => m == Message(7, IncomeBlock(p, o))
    case ClosingPriceSet(_) => m.tmpl == 8
    case CustodyReconciled(_, _) => m.tmpl == 9
    case EodMarked(_, _, _) => m.tmpl == 10
    case Unreadable(_) => false
  }

  /** The number of an owner is read back from eight bytes. */
  lemma OwnerBack(doc: U64)
    ensures FromLe(Le(8, doc)) == doc
  {
    Widths();
    LeRoundTrip(8, doc);
  }

  lemma ExecutionGoesTo(route: Ingress.Router, x: Execution, o: Other, i: nat, n: nat)
    requires i < n
    ensures Receives(route, Message(2, ExecutionBlock(x, o)), i, n) <==> route(x.account) == i
    ensures FullBlock(Message(2, ExecutionBlock(x, o)))
  {
    OwnerBack(x.account);
    hide Le, FromLe, Signed64, Fee;
    assert ExecutionBlock(x, o)[16..24] == Le(8, x.account);
    hide ExecutionBlock;
  }

  lemma AllocationGoesTo(route: Ingress.Router, a: Allocation, o: Other, i: nat, n: nat)
    requires i < n
    ensures Receives(route, Message(3, AllocationBlock(a, o)), i, n) <==> route(a.to) == i
    ensures FullBlock(Message(3, AllocationBlock(a, o)))
  {
    OwnerBack(a.to);
    hide Le, FromLe, Signed64;
    assert AllocationBlock(a, o)[24..32] == Le(8, a.to);
    hide AllocationBlock;
  }

  lemma NettingGoesTo(route: Ingress.Router, account: U64, net: int, date: Date, count: nat, o: Other, i: nat, n: nat)
    requires i < n
    ensures Receives(route, Message(4, NettingBlock(account, net, date, count, o)), i, n) <==> route(account) == i
    ensures FullBlock(Message(4, NettingBlock(account, net, date, count, o)))
  {
    OwnerBack(account);
    hide Le, FromLe, Signed64;
    assert NettingBlock(account, net, date, count, o)[8..16] == Le(8, account);
    hide NettingBlock;
  }

  lemma SettlementGoesTo(route: Ingress.Router, s: Settlement, o: Other, i: nat, n: nat)
    requires i < n
    ensures Receives(route, Message(5, SettlementBlock(s, o)), i, n) <==> route(s.account) == i
    ensures FullBlock(Message(5, SettlementBlock(s, o)))
  {
    OwnerBack(s.account);
    hide Le, FromLe, Signed64, OutcomeCode;
    assert SettlementBlock(s, o)[8..16] == Le(8, s.account);
    hide SettlementBlock;
  }

  lemma ActionGoesTo(route: Ingress.Router, c: Action, o: Other, i: nat, n: nat)
    requires i < n
    ensures Receives(route, Message(6, ActionBlock(c, o)), i, n) <==> route(c.account) == i
    ensures FullBlock(Message(6, ActionBlock(c, o)))
  {
    OwnerBack(c.account);
    hide Le, FromLe, Signed64, KindCode;
    assert ActionBlock(c, o)[8..16] == Le(8, c.account);
    hide ActionBlock;
  }

  lemma IncomeGoesTo(route: Ingress.Router, p: Dividend, o: Other, i: nat, n: nat)
    requires i < n
    ensures Receives(route, Message(7, IncomeBlock(p, o)), i, n) <==> route(p.account) == i
    ensures FullBlock(Message(7, IncomeBlock(p, o)))
  {
    OwnerBack(p.account);
    hide Le, FromLe, Signed64;
    assert IncomeBlock(p, o)[8..16] == Le(8, p.account);
    hide IncomeBlock;
  }

  /** An event's message reaches a partition exactly when the event's own document leads there, the receiver's for an
      allocation; an event that concerns all reaches every one. It is long enough to hold its owner. */
  lemma EventGoesTo(route: Ingress.Router, m: Message, e: Event, o: Other, i: nat, n: nat)
    requires Carries(m, e, o) && i < n
    ensures FullBlock(m)
    ensures Receives(route, m, i, n)
       <==> match e
            case TradeExecuted(x) => route(x.account) == i
            case TradeAllocated(a) => route(a.to) == i
            case BatchNetted(account, _, _, _) => route(account) == i
            case TradeSettled(s) => route(s.account) == i
            case CorporateActionApplied(c) => route(c.account) == i
            case DividendPaid(p) => route(p.account) == i
            case _ => true
  {
    hide ExecutionBlock, AllocationBlock, NettingBlock, SettlementBlock, ActionBlock, IncomeBlock;
    match e
    case TradeExecuted(x) => ExecutionGoesTo(route, x, o, i, n);
    case TradeAllocated(a) => AllocationGoesTo(route, a, o, i, n);
    case BatchNetted(account, net, date, count) => NettingGoesTo(route, account, net, date, count, o, i, n);
    case TradeSettled(s) => SettlementGoesTo(route, s, o, i, n);
    case CorporateActionApplied(c) => ActionGoesTo(route, c, o, i, n);
    case DividendPaid(p) => IncomeGoesTo(route, p, o, i, n);
    case _ =>
  }

  // ---------------------------------------------------------------- whole streams

  /** The events of a stream that partition `i` is to get, in order. */
  function ShareOf(route: Ingress.Router, es: seq<Event>, i: nat): seq<Event> {
    if es == [] then []
    else
      var init := ShareOf(route, es[..|es| - 1], i);
      if Independence.Gets((doc: U64) => route(doc), es[|es| - 1], i) then init + [es[|es| - 1]] else init
  }

  ghost predicate AllCarry(ms: seq<Message>, es: seq<Event>, os: seq<Other>) {
    |ms| == |es| == |os| && forall k :: 0 <= k < |ms| ==> Carries(ms[k], es[k], os[k])
  }

  /** What an inbox receives of the messages of a stream of events are messages of exactly the events its partition is
      to get, in order: the ingress splits a stream as the theory of partitions does. */
  lemma {:induction false} InboxIsShare(route: Ingress.Router, ms: seq<Message>, es: seq<Event>, os: seq<Other>, i: nat,
                                        n: nat)
    returns (rest: seq<Other>)
    requires AllCarry(ms, es, os) && i < n
    ensures AllCarry(Routed(route, ms, i, n), ShareOf(route, es, i), rest)
    decreases |ms|
  {
    hide Carries;
    rest := [];
    if ms != [] {
      var k := |ms| - 1;
      rest := InboxIsShare(route, ms[..k], es[..k], os[..k], i, n);
      GetsIt(route, ms[k], es[k], os[k], i, n);
      if Receives(route, ms[k], i, n) {
        rest := rest + [os[k]];
      }
    }
  }

  lemma GetsIt(route: Ingress.Router, m: Message, e: Event, o: Other, i: nat, n: nat)
    requires Carries(m, e, o) && i < n
    ensures Receives(route, m, i, n) <==> Independence.Gets((doc: U64) => route(doc), e, i)
  {
    EventGoesTo(route, m, e, o, i, n);
    hide Receives;
  }
}
