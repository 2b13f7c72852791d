/** The number of partitions does not change the books. */
module Independence {
  import opened Bytes
  import opened Status
  import opened Calendar
  import opened Idempotency
  import opened Ledgers
  import opened Applying
  import opened Footprints
  import BucketLaws
  import opened AppliedOnce
  import opened OwnerViews
  import opened OwnerSteps

  // ---------------------------------------------------------------- what two ledgers share

  /** Well formed, with every key naming an owner's row. */
  ghost predicate Sound(d: Ledger) {
    WellFormed(d) && KeysOwned(d, d.actions) && KeysOwned(d, d.income)
  }

  /** Two ledgers agree on what belongs to no owner. */
  ghost predicate SameDay(s: Ledger, p: Ledger)
    requires WellFormed(s) && WellFormed(p)
  {
    && s.window == p.window && s.businessDate == p.businessDate && s.cap.windowDays == p.cap.windowDays
    && s.actions.current == p.actions.current && s.actions.rotation == p.actions.rotation
    && s.income.current == p.income.current && s.income.rotation == p.income.rotation
    && forall inst: U32 :: FactorOf(s, inst) == FactorOf(p, inst)
  }

  /** Two ledgers agree on an owner's books and rows. */
  ghost predicate SameBooksOf(s: Ledger, p: Ledger, doc: U64)
    requires WellFormed(s) && WellFormed(p)
  {
    && FundsOf(s, doc) == FundsOf(p, doc)
    && forall inst: U32 :: BalancesOf(s, doc, inst) == BalancesOf(p, doc, inst)
                           && HasPosition(s, doc, inst) == HasPosition(p, doc, inst)
  }

  ghost predicate SameMarks(s: Ledger, p: Ledger, x: TwoGen, y: TwoGen, doc: U64) {
    forall id: U64 :: Marked(s, x.gen0, id, doc) == Marked(p, y.gen0, id, doc)
                      && Marked(s, x.gen1, id, doc) == Marked(p, y.gen1, id, doc)
  }

  /** And on all that is recorded of the owner. */
  ghost predicate SameOwner(s: Ledger, p: Ledger, doc: U64)
    requires WellFormed(s) && WellFormed(p)
  {
    && SameBooksOf(s, p, doc) && SameMarks(s, p, s.actions, p.actions, doc) && SameMarks(s, p, s.income, p.income, doc)
  }

  /** Events that concern every owner at once. */
  predicate ForAll(e: Event) {
    e.DayOpened? || e.ClosingPriceSet? || e.CustodyReconciled? || e.EodMarked? || e.Unreadable?
  }

  function OwnerOf(e: Event): U64 {
    TargetOf(e).doc
  }

  /** Allocations stay on one owner. */
  predicate InScope(e: Event) {
    e.TradeAllocated? ==> e.a.from == e.a.to
  }

  predicate FreshTrade(d: Ledger, e: Event) {
    e.TradeExecuted? ==> e.x.id !in d.tradeIndex
  }

  // ---------------------------------------------------------------- one event

  /** Whether an owner's event takes effect depends on what both ledgers share. */
  lemma ReachAgrees(s: Ledger, p: Ledger, e: Event)
    requires WellFormed(s) && WellFormed(p) && SameDay(s, p) && InScope(e) && FreshTrade(s, e) && FreshTrade(p, e)
    requires ForAll(e) || SameOwner(s, p, OwnerOf(e))
    ensures Reaches(s, e) == Reaches(p, e)
  {
    hide WellFormed, BalancesOf, FundsOf, FactorOf, HasPosition, Marked, SettleBuckets, ActionBuckets, ActionError;
    hide ExecutionError, DividendStands;
  }

  /** What it leaves in its owner's books, too. */
  lemma AfterAgrees(s: Ledger, p: Ledger, e: Event, doc: U64, inst: U32)
    requires WellFormed(s) && WellFormed(p) && SameDay(s, p) && InScope(e) && SameBooksOf(s, p, doc)
    ensures BalancesAfter(s, e, doc, inst) == BalancesAfter(p, e, doc, inst)
    ensures FundsAfter(s, e, doc) == FundsAfter(p, e, doc)
  {
    hide WellFormed, BalancesOf, FundsOf, FactorOf, HasPosition, SettleBuckets, ActionBuckets, ActionError, Amount;
    hide RotateBalances, RotateFunds, ExecuteBalances, TradeInstrument;
  }

  /** Nothing changes in anyone else's. */
  lemma AfterElsewhere(d: Ledger, e: Event, doc: U64, inst: U32)
    requires WellFormed(d) && InScope(e) && !ForAll(e) && doc != OwnerOf(e)
    ensures BalancesAfter(d, e, doc, inst) == BalancesOf(d, doc, inst) && FundsAfter(d, e, doc) == FundsOf(d, doc)
    ensures !Makes(d, e, doc, inst)
  {
    hide WellFormed, BalancesOf, FundsOf, FactorOf, SettleBuckets, ActionBuckets, ActionError, Amount, TradeInstrument;
  }

  /** Does the event reach the books? For some kinds it has nothing to reach. */
  predicate Settles(e: Event) {
    e.DayOpened? || e.TradeExecuted? || e.TradeSettled? || e.CorporateActionApplied? || e.DividendPaid?
  }

  lemma ReachesExactly(d: Ledger, e: Event)
    requires Sound(d) && Settles(e) && !IsFatal(Dispatch(d, e).st)
    ensures Dispatch(d, e).st == Ok <==> Reaches(d, e)
  {
    hide WellFormed, KeysOwned, Reaches, ApplyTradeExecuted, ApplyTradeSettled, ApplyCorporateAction, ApplyDividendPaid;
    match e
    case DayOpened(today, d1, d2, previous) => DayReaches(d, today, d1, d2, previous);
    case TradeExecuted(x) => ExecutionReaches(d, x);
    case TradeSettled(s) => SettlementReaches(d, s);
    case CorporateActionApplied(c) => ActionReaches(d, c);
    case DividendPaid(p) => DividendReaches(d, p);
    case _ =>
  }

  lemma DayReaches(d: Ledger, today: Date, d1: Date, d2: Date, previous: Date)
    requires WellFormed(d)
    ensures ApplyDayOpened(d, today, d1, d2, previous).st == Ok <==> Reaches(d, DayOpened(today, d1, d2, previous))
  {
    hide WellFormed;
  }

  /** The books of an owner after an event that is not fatal. */
  lemma BooksAfter(d: Ledger, e: Event, doc: U64, inst: U32)
    requires Sound(d) && InScope(e) && !IsFatal(Dispatch(d, e).st)
    ensures var r := Dispatch(d, e).d;
            && BalancesOf(r, doc, inst) == (if Settles(e) && !Reaches(d, e) then BalancesOf(d, doc, inst)
                                            else BalancesAfter(d, e, doc, inst))
            && FundsOf(r, doc) == (if Settles(e) && !Reaches(d, e) then FundsOf(d, doc) else FundsAfter(d, e, doc))
            && (HasPosition(r, doc, inst) <==> HasPosition(d, doc, inst) || Makes(d, e, doc, inst))
  {
    hide WellFormed, BalancesOf, FundsOf, HasPosition, Dispatch, Makes, Reaches, KeysOwned;
    Effect(d, e, doc, inst);
    PositionsAfter(d, e, doc, inst);
    if Settles(e) {
      ReachesExactly(d, e);
    } else {
      hide TradeInstrument, SettleBuckets, ActionBuckets;
    }
  }

  lemma BooksStep(s: Ledger, p: Ledger, e: Event, doc: U64)
    requires Sound(s) && Sound(p) && SameDay(s, p) && SameBooksOf(s, p, doc) && InScope(e)
    requires !IsFatal(Dispatch(s, e).st) && !IsFatal(Dispatch(p, e).st)
    requires FreshTrade(s, e) && FreshTrade(p, e) && (ForAll(e) || OwnerOf(e) != doc || SameOwner(s, p, doc))
    ensures SameBooksOf(Dispatch(s, e).d, Dispatch(p, e).d, doc)
  {
    hide WellFormed, BalancesOf, FundsOf, HasPosition, Dispatch, Makes, Reaches, KeysOwned, BalancesAfter, FundsAfter;
    hide SameMarks, FactorOf;
    if ForAll(e) || OwnerOf(e) == doc {
      ReachAgrees(s, p, e);
    }
    forall inst: U32
      ensures var x, y := Dispatch(s, e).d, Dispatch(p, e).d;
              && FundsOf(x, doc) == FundsOf(y, doc) && BalancesOf(x, doc, inst) == BalancesOf(y, doc, inst)
              && HasPosition(x, doc, inst) == HasPosition(y, doc, inst)
    {
      BooksAfter(s, e, doc, inst);
      BooksAfter(p, e, doc, inst);
      AfterAgrees(s, p, e, doc, inst);
      if !ForAll(e) && OwnerOf(e) != doc {
        AfterElsewhere(s, e, doc, inst);
        AfterElsewhere(p, e, doc, inst);
      } else {
        MakesAgrees(s, p, e, doc, inst);
      }
    }
    assert FundsOf(Dispatch(s, e).d, doc) == FundsOf(Dispatch(p, e).d, doc) by {
      BooksAfter(s, e, doc, 0);
      BooksAfter(p, e, doc, 0);
      AfterAgrees(s, p, e, doc, 0);
      if !ForAll(e) && OwnerOf(e) != doc {
        AfterElsewhere(s, e, doc, 0);
        AfterElsewhere(p, e, doc, 0);
      }
    }
  }

  lemma MakesAgrees(s: Ledger, p: Ledger, e: Event, doc: U64, inst: U32)
    requires WellFormed(s) && WellFormed(p) && SameDay(s, p) && FreshTrade(s, e) && FreshTrade(p, e)
    ensures Makes(s, e, doc, inst) == Makes(p, e, doc, inst)
  {
    hide WellFormed, FactorOf;
  }

  // ---------------------------------------------------------------- keys

  /** Rows that stay put keep every mark where it was, for owners old and new. */
  lemma MarkedStays(d: Ledger, e: Ledger, g: set<AppliedKey>, id: U64, doc: U64)
    requires WellFormed(d) && WellFormed(e) && Steady(d, e) && forall k :: k in g ==> k.account in d.accountIndex.Values
    ensures Marked(e, g, id, doc) == Marked(d, g, id, doc)
  {
    if doc in e.accountIndex && doc !in d.accountIndex && KeyIn(e, id, doc) in g {
      RowTwice(d, e, doc, KeyIn(e, id, doc).account);
    }
  }

  /** A row of one owner is not given to another. */
  lemma RowTwice(d: Ledger, e: Ledger, doc: U64, row: nat)
    requires WellFormed(d) && WellFormed(e) && Steady(d, e) && doc in e.accountIndex && e.accountIndex[doc] == row
    requires row in d.accountIndex.Values
    ensures doc in d.accountIndex
  {
    var other :| other in d.accountIndex && d.accountIndex[other] == row;
    assert e.accounts[e.accountIndex[other]].document == other;
  }

  /** Marks after an event: a turn of the generations, one key more, or no change. */
  datatype Marking = Keep | Turn | Mark(id: U64, doc: U64)

  function ActionMarking(d: Ledger, e: Event): Marking
    requires WellFormed(d)
  {
    match e
    case DayOpened(_, _, _, _) => if Reaches(d, e) then Turn else Keep
    case CorporateActionApplied(c) =>
      if ActionError(c) == Ok && !Known(d, d.actions, c.id, c.account) then Mark(c.id, c.account) else Keep
    case _ => Keep
  }

  function IncomeMarking(d: Ledger, e: Event): Marking
    requires WellFormed(d)
  {
    match e
    case DayOpened(_, _, _, _) => if Reaches(d, e) then Turn else Keep
    case DividendPaid(p) => if Reaches(d, e) then Mark(p.id, p.account) else Keep
    case _ => Keep
  }

  /** `t` is `s` after the marking, in a ledger where the marked owner has a row. */
  ghost predicate MarkedBy(d: Ledger, s: TwoGen, t: TwoGen, today: Date, how: Marking) {
    match how
    case Keep => t == s
    case Turn => t == MaybeRotate(s, today, d.cap.windowDays)
    case Mark(id, doc) =>
      && doc in d.accountIndex
      && t == (if s.current then s.(gen1 := s.gen1 + {KeyIn(d, id, doc)}) else s.(gen0 := s.gen0 + {KeyIn(d, id, doc)}))
  }

  lemma InsertedBy(d: Ledger, s: TwoGen, id: U64, doc: U64, slots: nat, t: TwoGen)
    requires doc in d.accountIndex && Insert(s, KeyIn(d, id, doc), slots) == New(t)
    ensures MarkedBy(d, s, t, 0, Mark(id, doc))
  {
  }

  function TodayOf(e: Event): Date {
    if e.DayOpened? then e.today else 0
  }

  lemma MarkingHolds(d: Ledger, e: Event)
    requires Sound(d) && InScope(e) && !IsFatal(Dispatch(d, e).st)
    ensures var r := Dispatch(d, e).d;
            && Steady(d, r)
            && MarkedBy(r, d.actions, r.actions, TodayOf(e), ActionMarking(d, e))
            && MarkedBy(r, d.income, r.income, TodayOf(e), IncomeMarking(d, e))
            && r.businessDate == (if e.DayOpened? && Reaches(d, e) then e.today else d.businessDate)
  {
    hide WellFormed, KeysOwned, Reaches, Insert, MaybeRotate, Steady, ApplyTradeExecuted, ApplyTradeAllocated;
    hide ApplyTradeSettled, ApplyCorporateAction, ApplyBatchNetted, Reconciled, ApplyDayOpened, ApplyDividendPaid;
    hide ApplyClosingPrice, Known, ActionError;
    var r := Dispatch(d, e);
    match e
    case DayOpened(today, d1, d2, previous) =>
      DayCourse(d, today, d1, d2, previous);
      DayReaches(d, today, d1, d2, previous);
      CapOf(d, r.d);
    case CorporateActionApplied(c) =>
      ActionCourse(d, c);
      ActionReaches(d, c);
      if r.d.actions != d.actions {
        InsertedBy(r.d, d.actions, c.id, c.account, TableSize(d.cap.actionsPerGen), r.d.actions);
      }
    case DividendPaid(p) =>
      DividendCourse(d, p);
      DividendReaches(d, p);
      if r.st == Ok {
        InsertedBy(r.d, d.income, p.id, p.account, TableSize(d.cap.actionsPerGen), r.d.income);
      }
    case _ => OtherCourse(d, e);
  }

  /** Marking keeps every key on an owner's row. */
  lemma MarkingOwned(d: Ledger, e: Ledger, s: TwoGen, t: TwoGen, today: Date, how: Marking)
    requires WellFormed(d) && WellFormed(e) && Steady(d, e) && KeysOwned(d, s) && MarkedBy(e, s, t, today, how)
    ensures KeysOwned(e, t)
  {
    hide WellFormed, DayIndex;
    forall k | k in t.gen0 || k in t.gen1
      ensures k.account in e.accountIndex.Values
    {
      if k in s.gen0 || k in s.gen1 {
        var doc :| doc in d.accountIndex && d.accountIndex[doc] == k.account;
        assert e.accountIndex[doc] == k.account;
      }
    }
  }

  /** The same marking, or two that pass the owner by. */
  ghost predicate Alike(how: Marking, there: Marking, doc: U64) {
    || how == there
    || ((how == Keep || (how.Mark? && how.doc != doc)) && (there == Keep || (there.Mark? && there.doc != doc)))
  }

  /** Both ledgers marked alike agree afterwards. */
  lemma MarksStep(s: Ledger, s': Ledger, p: Ledger, p': Ledger, x: TwoGen, x': TwoGen, y: TwoGen, y': TwoGen,
                  today: Date, how: Marking, there: Marking, doc: U64)
    requires WellFormed(s) && WellFormed(s') && WellFormed(p) && WellFormed(p') && Steady(s, s') && Steady(p, p')
    requires KeysOwned(s, x) && KeysOwned(p, y) && SameMarks(s, p, x, y, doc)
    requires x.current == y.current && x.rotation == y.rotation && s'.cap.windowDays == p'.cap.windowDays
    requires MarkedBy(s', x, x', today, how) && MarkedBy(p', y, y', today, there)
    requires Alike(how, there, doc)
    ensures SameMarks(s', p', x', y', doc)
  {
    hide WellFormed, Steady, DayIndex;
    forall id: U64
      ensures Marked(s', x'.gen0, id, doc) == Marked(p', y'.gen0, id, doc)
      ensures Marked(s', x'.gen1, id, doc) == Marked(p', y'.gen1, id, doc)
    {
      MarkedStays(s, s', x.gen0, id, doc);
      MarkedStays(s, s', x.gen1, id, doc);
      MarkedStays(p, p', y.gen0, id, doc);
      MarkedStays(p, p', y.gen1, id, doc);
      MarkedMore(s', how, id, doc);
      MarkedMore(p', there, id, doc);
    }
  }

  /** One key more marks its owner and no other. */
  lemma MarkedMore(d: Ledger, how: Marking, id: U64, doc: U64)
    requires WellFormed(d) && (how.Mark? ==> how.doc in d.accountIndex)
    ensures how.Mark? ==> forall g :: Marked(d, g + {KeyIn(d, how.id, how.doc)}, id, doc)
                                  <==> Marked(d, g, id, doc) || (how.id == id && how.doc == doc)
  {
    if how.Mark? && doc in d.accountIndex && doc != how.doc {
      assert d.accountIndex[doc] != d.accountIndex[how.doc] by {
        assert d.accounts[d.accountIndex[doc]].document == doc;
      }
    }
  }

  /** One event on two ledgers that share an owner: they still do. */
  lemma OwnerStep(s: Ledger, p: Ledger, e: Event, doc: U64)
    requires Sound(s) && Sound(p) && SameDay(s, p) && SameOwner(s, p, doc) && InScope(e)
    requires !IsFatal(Dispatch(s, e).st) && !IsFatal(Dispatch(p, e).st) && FreshTrade(s, e) && FreshTrade(p, e)
    ensures Sound(Dispatch(s, e).d) && Sound(Dispatch(p, e).d) && SameOwner(Dispatch(s, e).d, Dispatch(p, e).d, doc)
  {
    hide WellFormed, Dispatch, Reaches, KeysOwned, SameBooksOf, SameMarks, MarkedBy, Steady, Known, FactorOf;
    BooksStep(s, p, e, doc);
    MarkingHolds(s, e);
    MarkingHolds(p, e);
    var s', p' := Dispatch(s, e).d, Dispatch(p, e).d;
    MarkingOwned(s, s', s.actions, s'.actions, TodayOf(e), ActionMarking(s, e));
    MarkingOwned(s, s', s.income, s'.income, TodayOf(e), IncomeMarking(s, e));
    MarkingOwned(p, p', p.actions, p'.actions, TodayOf(e), ActionMarking(p, e));
    MarkingOwned(p, p', p.income, p'.income, TodayOf(e), IncomeMarking(p, e));
    CapOf(s, s');
    CapOf(p, p');
    MarkingsAgree(s, p, e, doc);
    MarksStep(s, s', p, p', s.actions, s'.actions, p.actions, p'.actions, TodayOf(e), ActionMarking(s, e),
              ActionMarking(p, e), doc);
    MarksStep(s, s', p, p', s.income, s'.income, p.income, p'.income, TodayOf(e), IncomeMarking(s, e),
              IncomeMarking(p, e), doc);
  }

  lemma MarkingsAgree(s: Ledger, p: Ledger, e: Event, doc: U64)
    requires WellFormed(s) && WellFormed(p) && SameDay(s, p) && SameOwner(s, p, doc) && InScope(e)
    requires FreshTrade(s, e) && FreshTrade(p, e)
    ensures Alike(ActionMarking(s, e), ActionMarking(p, e), doc) && Alike(IncomeMarking(s, e), IncomeMarking(p, e), doc)
  {
    hide WellFormed, Reaches, SameBooksOf, Marked, FactorOf, ActionError;
    if ForAll(e) || OwnerOf(e) == doc {
      ReachAgrees(s, p, e);
    }
  }

  /** An owner's event passes every other owner by. */
  lemma OthersStay(s: Ledger, e: Event, doc: U64)
    requires Sound(s) && InScope(e) && !ForAll(e) && doc != OwnerOf(e) && !IsFatal(Dispatch(s, e).st)
    ensures Sound(Dispatch(s, e).d) && SameOwner(Dispatch(s, e).d, s, doc)
  {
    hide WellFormed, Dispatch, Reaches, KeysOwned, BalancesOf, FundsOf, HasPosition, Makes, BalancesAfter, FundsAfter;
    hide Steady, Known, ActionError, SameMarks, MarkedBy;
    var r := Dispatch(s, e).d;
    forall inst: U32
      ensures BalancesOf(r, doc, inst) == BalancesOf(s, doc, inst)
              && HasPosition(r, doc, inst) == HasPosition(s, doc, inst)
      ensures FundsOf(r, doc) == FundsOf(s, doc)
    {
      BooksAfter(s, e, doc, inst);
      AfterElsewhere(s, e, doc, inst);
    }
    assert FundsOf(r, doc) == FundsOf(s, doc) by {
      BooksAfter(s, e, doc, 0);
      AfterElsewhere(s, e, doc, 0);
    }
    MarkingHolds(s, e);
    MarkingOwned(s, r, s.actions, r.actions, TodayOf(e), ActionMarking(s, e));
    MarkingOwned(s, r, s.income, r.income, TodayOf(e), IncomeMarking(s, e));
    MarksElsewhere(s, r, s.actions, r.actions, TodayOf(e), ActionMarking(s, e), doc);
    MarksElsewhere(s, r, s.income, r.income, TodayOf(e), IncomeMarking(s, e), doc);
  }

  lemma MarksElsewhere(d: Ledger, e: Ledger, s: TwoGen, t: TwoGen, today: Date, how: Marking, doc: U64)
    requires WellFormed(d) && WellFormed(e) && Steady(d, e) && KeysOwned(d, s) && MarkedBy(e, s, t, today, how)
    requires how == Keep || (how.Mark? && how.doc != doc)
    ensures SameMarks(e, d, t, s, doc)
  {
    hide WellFormed, Steady;
    forall id: U64
      ensures Marked(e, t.gen0, id, doc) == Marked(d, s.gen0, id, doc)
      ensures Marked(e, t.gen1, id, doc) == Marked(d, s.gen1, id, doc)
    {
      MarkedStays(d, e, s.gen0, id, doc);
      MarkedStays(d, e, s.gen1, id, doc);
      MarkedMore(e, how, id, doc);
    }
  }

  // ---------------------------------------------------------------- the day

  lemma DayStep(s: Ledger, p: Ledger, e: Event)
    requires Sound(s) && Sound(p) && SameDay(s, p) && InScope(e) && ForAll(e)
    requires !IsFatal(Dispatch(s, e).st) && !IsFatal(Dispatch(p, e).st)
    ensures SameDay(Dispatch(s, e).d, Dispatch(p, e).d)
  {
    hide WellFormed, Dispatch, KeysOwned, FactorOf, Steady, DayIndex;
    var s', p' := Dispatch(s, e).d, Dispatch(p, e).d;
    MarkingHolds(s, e);
    MarkingHolds(p, e);
    CapOf(s, s');
    CapOf(p, p');
    if e.DayOpened? {
      ReachesExactly(s, e);
      ReachesExactly(p, e);
    }
    forall inst: U32
      ensures FactorOf(s', inst) == FactorOf(p', inst) && s'.window == p'.window
    {
      CommonAfter(s, e, inst);
      CommonAfter(p, e, inst);
    }
    assert s'.window == p'.window by {
      CommonAfter(s, e, 0);
      CommonAfter(p, e, 0);
    }
  }

  /** An owner's event leaves the day alone. */
  lemma DayStays(s: Ledger, e: Event)
    requires Sound(s) && InScope(e) && !ForAll(e) && !IsFatal(Dispatch(s, e).st)
    ensures SameDay(Dispatch(s, e).d, s)
  {
    hide WellFormed, Dispatch, KeysOwned, FactorOf, Steady, Reaches, Known, ActionError;
    var s' := Dispatch(s, e).d;
    MarkingHolds(s, e);
    CapOf(s, s');
    forall inst: U32
      ensures FactorOf(s', inst) == FactorOf(s, inst)
    {
      CommonAfter(s, e, inst);
    }
    CommonAfter(s, e, 0);
  }

  // ---------------------------------------------------------------- the sums

  lemma NettingFollows(d: Ledger, account: U64, net: int, date: Date, count: nat)
    requires WellFormed(d)
    ensures SumsFollow(d, ApplyBatchNetted(d, account, net, date, count).d, Target(account, 0))
  {
    hide WellFormed, InternAccount, SumsFollow, Extends, CountNetted;
    var t := Target(account, 0);
    ItselfFollows(d, t);
    var i1 := InternAccount(d, account);
    if i1.Row? {
      ExtendsFollow(d, i1.d, t);
      var e := ApplyBatchNetted(d, account, net, date, count).d;
      SameRowsFollow(i1.d, e, t);
      FollowAgain(d, i1.d, e, t);
    }
  }

  lemma AllocationFollows(d: Ledger, a: Allocation)
    requires WellFormed(d) && a.from == a.to
    ensures SumsFollow(d, ApplyTradeAllocated(d, a).d, Target(a.to, 0))
  {
    hide WellFormed, InternAccount, AllocateRows, SumsFollow, Extends;
    var t := Target(a.to, 0);
    ItselfFollows(d, t);
    RowsInRange(d);
    if a.trade in d.tradeIndex && NextState(d.trades[d.tradeIndex[a.trade]].state, Allocate) != Absent {
      var i1 := InternAccount(d, a.from);
      if i1.Row? {
        ExtendsFollow(d, i1.d, t);
        var i2 := InternAccount(i1.d, a.to);
        if i2.Row? {
          ExtendsAgain(d, i1.d, i2.d);
          ExtendsTables(d, i2.d);
          ExtendsSizes(i1.d, i2.d);
          AccountRows(i1.d, i2.d, i1.row, i2.row);
          ExtendsFollow(d, i2.d, t);
          WithinFollows(i2.d, a, d.tradeIndex[a.trade], i1.row, t);
          FollowAgain(d, i2.d, AllocateRows(i2.d, a, d.tradeIndex[a.trade], i1.row, i1.row).d, t);
        }
      }
    }
  }

  lemma WithinFollows(d: Ledger, a: Allocation, t: nat, acct: nat, target: Target)
    requires WellFormed(d) && t < |d.trades| && acct < |d.accounts|
    ensures SumsFollow(d, AllocateRows(d, a, t, acct, acct).d, target)
  {
    hide WellFormed, SumsFollow;
    SameRowsFollow(d, AllocateRows(d, a, t, acct, acct).d, target);
  }

  /** An owner's event moves the sums by its owner's share. */
  lemma OwnerFollows(d: Ledger, e: Event)
    requires WellFormed(d) && !ForAll(e) && InScope(e)
    ensures SumsFollow(d, Dispatch(d, e).d, TargetOf(e))
  {
    hide WellFormed, SumsFollow, ApplyTradeExecuted, ApplyTradeAllocated, ApplyTradeSettled, ApplyCorporateAction;
    hide ApplyBatchNetted, ApplyDividendPaid;
    match e
    case TradeExecuted(x) => ExecutedFollows(d, x);
    case TradeAllocated(a) => AllocationFollows(d, a);
    case BatchNetted(account, net, date, count) => NettingFollows(d, account, net, date, count);
    case TradeSettled(s) => SettledFollows(d, s);
    case CorporateActionApplied(c) => ActionFollows(d, c);
    case DividendPaid(p) => DividendFollows(d, p);
    case _ =>
  }

  lemma {:induction false} ReconciledSums(d: Ledger, date: Date, ds: seq<Divergence>)
    requires WellFormed(d)
    ensures SumsOf(Reconciled(d, date, ds)) == SumsOf(d)
    decreases |ds|
  {
    hide WellFormed;
    if ds != [] {
      var x := ExceptionRecord(ds[0].account, ds[0].qtyDelta, ds[0].instrument, date, QtyMismatch);
      ReconciledSums(PushException(d, x, true), date, ds[1..]);
    }
  }

  lemma PriceSums(d: Ledger, q: Closing)
    requires WellFormed(d)
    ensures SumsOf(ApplyClosingPrice(d, q).d) == SumsOf(d)
  {
    hide WellFormed, InternInstrument, CustodySum, CashSum, Extends;
    var i1 := InternInstrument(d, q.instrument);
    if q.factor != 0 && i1.Row? {
      ExtendsSums(d, i1.d);
    }
  }

  lemma DaySums(d: Ledger, today: Date, d1: Date, d2: Date, previous: Date)
    requires WellFormed(d)
    ensures SumsOf(ApplyDayOpened(d, today, d1, d2, previous).d) == SumsOf(d)
  {
    hide WellFormed, CustodySum, CashSum;
    RotatedCustodySum(d.custody, d.window, Window(today, d1, d2));
    RotatedCashSum(d.accounts, d.window, Window(today, d1, d2));
  }

  /** An event for all moves no sum. */
  lemma AllFollow(d: Ledger, e: Event)
    requires WellFormed(d) && ForAll(e)
    ensures SumsOf(Dispatch(d, e).d) == SumsOf(d)
  {
    hide WellFormed, SumsOf, ApplyDayOpened, ApplyClosingPrice, Reconciled, ApplyEodMarked;
    match e
    case DayOpened(today, d1, d2, previous) => DaySums(d, today, d1, d2, previous);
    case ClosingPriceSet(q) => PriceSums(d, q);
    case CustodyReconciled(date, ds) => ReconciledSums(d, date, ds);
    case EodMarked(custodySum, cashSum, marked) => AnchorSums(d, custodySum, cashSum, marked);
    case Unreadable(_) =>
    case _ =>
  }

  lemma AnchorSums(d: Ledger, custodySum: U64, cashSum: U64, marked: bool)
    ensures SumsOf(ApplyEodMarked(d, custodySum, cashSum, marked).d) == SumsOf(d)
  {
    hide CustodySum, CashSum;
  }

  // ---------------------------------------------------------------- one system, one partition or many

  type Router = U64 -> nat

  function Add(a: Sums, b: Sums): Sums {
    Sums(a.custody + b.custody, a.cash + b.cash)
  }

  function Less(a: Sums, b: Sums): Sums {
    Sums(a.custody - b.custody, a.cash - b.cash)
  }

  function TotalSums(ps: seq<Ledger>): Sums {
    if ps == [] then Sums(0, 0) else Add(TotalSums(ps[..|ps| - 1]), SumsOf(ps[|ps| - 1]))
  }

  lemma {:induction false} TotalUpdate(ps: seq<Ledger>, i: nat, d: Ledger)
    requires i < |ps|
    ensures TotalSums(ps[i := d]) == Add(TotalSums(ps), Less(SumsOf(d), SumsOf(ps[i])))
    decreases |ps|
  {
    hide SumsOf;
    var n := |ps| - 1;
    if i < n {
      TotalUpdate(ps[..n], i, d);
      assert ps[i := d][..n] == ps[..n][i := d];
    } else {
      assert ps[i := d][..n] == ps[..n];
    }
  }

  lemma {:induction false} TotalSame(ps: seq<Ledger>, qs: seq<Ledger>)
    requires |ps| == |qs| && forall i :: 0 <= i < |ps| ==> SumsOf(qs[i]) == SumsOf(ps[i])
    ensures TotalSums(qs) == TotalSums(ps)
    decreases |ps|
  {
    hide SumsOf;
    if ps != [] {
      TotalSame(ps[..|ps| - 1], qs[..|qs| - 1]);
    }
  }

  /** Which partition an event is delivered to. */
  predicate Gets(route: Router, e: Event, i: nat) {
    ForAll(e) || route(OwnerOf(e)) == i
  }

  function Delivered(d: Ledger, e: Event, gets: bool): (r: Ledger)
    requires WellFormed(d)
    ensures WellFormed(r)
  {
    hide WellFormed;
    if gets then Dispatch(d, e).d else d
  }

  ghost predicate AllWellFormed(ps: seq<Ledger>) {
    forall i :: 0 <= i < |ps| ==> WellFormed(ps[i])
  }

  function DeliverAll(route: Router, ps: seq<Ledger>, e: Event): (r: seq<Ledger>)
    requires AllWellFormed(ps)
    ensures AllWellFormed(r) && |r| == |ps|
    ensures forall i :: 0 <= i < |ps| ==> r[i] == Delivered(ps[i], e, Gets(route, e, i))
  {
    hide WellFormed;
    seq(|ps|, i requires 0 <= i < |ps| => Delivered(ps[i], e, Gets(route, e, i)))
  }

  /** Each partition shares the day, and its owners, with the single ledger. */
  ghost predicate Mirrors(route: Router, s: Ledger, p: Ledger, i: nat) {
    && Sound(p) && Sound(s) && SameDay(s, p)
    && forall doc: U64 :: route(doc) == i ==> SameOwner(s, p, doc)
  }

  ghost predicate Mirrored(route: Router, s: Ledger, ps: seq<Ledger>) {
    && (forall i :: 0 <= i < |ps| ==> Mirrors(route, s, ps[i], i))
    && TotalSums(ps) == SumsOf(s)
  }

  /** No event is fatal where it is delivered. */
  ghost predicate Survives(route: Router, s: Ledger, ps: seq<Ledger>, e: Event)
    requires WellFormed(s) && AllWellFormed(ps)
  {
    && !IsFatal(Dispatch(s, e).st)
    && forall i :: 0 <= i < |ps| && Gets(route, e, i) ==> !IsFatal(Dispatch(ps[i], e).st)
  }

  lemma MirrorStep(route: Router, s: Ledger, p: Ledger, i: nat, e: Event)
    requires Mirrors(route, s, p, i) && InScope(e) && FreshTrade(s, e) && FreshTrade(p, e)
    requires !IsFatal(Dispatch(s, e).st) && (Gets(route, e, i) ==> !IsFatal(Dispatch(p, e).st))
    ensures Mirrors(route, Dispatch(s, e).d, Delivered(p, e, Gets(route, e, i)), i)
  {
    hide WellFormed, Dispatch, KeysOwned, SameOwner, SameDay;
    var s', p' := Dispatch(s, e).d, Delivered(p, e, Gets(route, e, i));
    SoundStep(s, e);
    if Gets(route, e, i) {
      SoundStep(p, e);
      if ForAll(e) {
        DayStep(s, p, e);
      } else {
        DayStays(s, e);
        DayStays(p, e);
        SameDayTrans(s', s, p, p');
      }
      forall doc: U64 | route(doc) == i
        ensures SameOwner(s', p', doc)
      {
        OwnerStep(s, p, e, doc);
      }
    } else {
      DayStays(s, e);
      ItsOwnDay(p);
      SameDayTrans(s', s, p, p);
      forall doc: U64 | route(doc) == i
        ensures SameOwner(s', p, doc)
      {
        OthersStay(s, e, doc);
        SameOwnerTrans(s', s, p, doc);
      }
    }
  }

  lemma SoundStep(d: Ledger, e: Event)
    requires Sound(d) && InScope(e) && !IsFatal(Dispatch(d, e).st)
    ensures Sound(Dispatch(d, e).d)
  {
    hide WellFormed, Dispatch, KeysOwned, MarkedBy, Steady;
    MarkingHolds(d, e);
    var r := Dispatch(d, e).d;
    MarkingOwned(d, r, d.actions, r.actions, TodayOf(e), ActionMarking(d, e));
    MarkingOwned(d, r, d.income, r.income, TodayOf(e), IncomeMarking(d, e));
  }

  lemma ItsOwnDay(p: Ledger)
    requires WellFormed(p)
    ensures SameDay(p, p)
  {
    hide WellFormed, FactorOf;
  }

  lemma SameDayTrans(a: Ledger, b: Ledger, c: Ledger, d: Ledger)
    requires WellFormed(a) && WellFormed(b) && WellFormed(c) && WellFormed(d)
    requires SameDay(a, b) && SameDay(b, c) && SameDay(d, c)
    ensures SameDay(a, d)
  {
    hide WellFormed, FactorOf;
  }

  lemma SameOwnerTrans(a: Ledger, b: Ledger, c: Ledger, doc: U64)
    requires WellFormed(a) && WellFormed(b) && WellFormed(c) && SameOwner(a, b, doc) && SameOwner(b, c, doc)
    ensures SameOwner(a, c, doc)
  {
    hide WellFormed, BalancesOf, FundsOf, HasPosition, Marked;
  }

  /** The sums of all partitions move as the single ledger's do. */
  lemma SumsStep(route: Router, s: Ledger, ps: seq<Ledger>, e: Event)
    requires WellFormed(s) && AllWellFormed(ps) && Mirrored(route, s, ps) && InScope(e) && Survives(route, s, ps, e)
    requires FreshTrade(s, e) && forall i :: 0 <= i < |ps| ==> FreshTrade(ps[i], e)
    requires ForAll(e) || route(OwnerOf(e)) < |ps|
    ensures TotalSums(DeliverAll(route, ps, e)) == SumsOf(Dispatch(s, e).d)
  {
    hide WellFormed, Dispatch, SumsOf, KeysOwned, SameDay, SameOwner;
    var qs := DeliverAll(route, ps, e);
    if ForAll(e) {
      forall i | 0 <= i < |ps|
        ensures SumsOf(qs[i]) == SumsOf(ps[i])
      {
        AllFollow(ps[i], e);
      }
      TotalSame(ps, qs);
      AllFollow(s, e);
    } else {
      var i := route(OwnerOf(e));
      assert Mirrors(route, s, ps[i], i);
      assert qs == ps[i := Dispatch(ps[i], e).d];
      TotalUpdate(ps, i, Dispatch(ps[i], e).d);
      OwnerFollows(s, e);
      OwnerFollows(ps[i], e);
      OwnerStep(s, ps[i], e, OwnerOf(e));
      SameShare(s, ps[i], TargetOf(e));
      SameShare(Dispatch(s, e).d, Dispatch(ps[i], e).d, TargetOf(e));
    }
  }

  lemma SameShare(s: Ledger, p: Ledger, t: Target)
    requires WellFormed(s) && WellFormed(p) && SameOwner(s, p, t.doc)
    ensures Share(s, t) == Share(p, t)
  {
    hide WellFormed, BalancesOf, FundsOf, HasPosition, Marked;
  }

  lemma MirroredStep(route: Router, s: Ledger, ps: seq<Ledger>, e: Event)
    requires WellFormed(s) && AllWellFormed(ps) && Mirrored(route, s, ps) && InScope(e) && Survives(route, s, ps, e)
    requires FreshTrade(s, e) && forall i :: 0 <= i < |ps| ==> FreshTrade(ps[i], e)
    requires ForAll(e) || route(OwnerOf(e)) < |ps|
    ensures Mirrored(route, Dispatch(s, e).d, DeliverAll(route, ps, e))
  {
    hide WellFormed, Dispatch, SumsOf, Mirrors;
    SumsStep(route, s, ps, e);
    forall i | 0 <= i < |ps|
      ensures Mirrors(route, Dispatch(s, e).d, DeliverAll(route, ps, e)[i], i)
    {
      MirrorStep(route, s, ps[i], i, e);
    }
  }

  // ---------------------------------------------------------------- over whole runs

  /** The single ledger after all events; their LSN stamps, which are each log's own, are left aside. */
  function RunOne(s: Ledger, es: seq<Event>): (r: Ledger)
    requires WellFormed(s)
    ensures WellFormed(r)
    decreases |es|
  {
    hide WellFormed;
    if es == [] then s else RunOne(Dispatch(s, es[0]).d, es[1..])
  }

  function RunMany(route: Router, ps: seq<Ledger>, es: seq<Event>): (r: seq<Ledger>)
    requires AllWellFormed(ps)
    ensures AllWellFormed(r) && |r| == |ps|
    decreases |es|
  {
    hide WellFormed;
    if es == [] then ps else RunMany(route, DeliverAll(route, ps, es[0]), es[1..])
  }

  ghost predicate AllSurvive(route: Router, s: Ledger, ps: seq<Ledger>, es: seq<Event>)
    requires WellFormed(s) && AllWellFormed(ps)
    decreases |es|
  {
    es == [] || (Survives(route, s, ps, es[0])
                 && AllSurvive(route, Dispatch(s, es[0]).d, DeliverAll(route, ps, es[0]), es[1..]))
  }

  /** Trades executed in the stream have numbers of their own, and none of those seen before. */
  ghost predicate DistinctTrades(es: seq<Event>, seen: set<U64>)
    decreases |es|
  {
    es == [] || (ExecutedId(es[0]) !! seen && DistinctTrades(es[1..], seen + ExecutedId(es[0])))
  }

  ghost predicate IdsWithin(d: Ledger, seen: set<U64>) {
    d.tradeIndex.Keys <= seen
  }

  lemma IdsStep(d: Ledger, e: Event, seen: set<U64>)
    requires WellFormed(d) && IdsWithin(d, seen)
    ensures IdsWithin(Dispatch(d, e).d, seen + ExecutedId(e))
  {
    hide WellFormed, ApplyTradeExecuted, ApplyTradeAllocated, ApplyTradeSettled, ApplyBatchNetted, Reconciled;
    hide ApplyClosingPrice, ApplyDayOpened, ApplyDividendPaid, ApplyCorporateAction, Insert, Steady;
    match e
    case DayOpened(today, d1, d2, previous) => DayIds(d, today, d1, d2, previous);
    case CorporateActionApplied(c) => ActionCourse(d, c);
    case DividendPaid(p) => DividendCourse(d, p);
    case _ => OtherCourse(d, e);
  }

  lemma DayIds(d: Ledger, today: Date, d1: Date, d2: Date, previous: Date)
    requires WellFormed(d)
    ensures ApplyDayOpened(d, today, d1, d2, previous).d.tradeIndex.Keys <= d.tradeIndex.Keys
  {
    var r := ApplyDayOpened(d, today, d1, d2, previous);
    if r.st == Ok {
      var to := Window(today, d1, d2);
      BucketLaws.TurnKeepsTrades(d, today, to, previous);
      SurvivingFrom(d.trades, to);
      hide WithinCapacity, SurvivesDay, MaybeRotate;
      assert r.d.trades == Surviving(d.trades, to);
      forall k | k in r.d.tradeIndex.Keys
        ensures k in d.tradeIndex.Keys
      {
        var t := r.d.trades[r.d.tradeIndex[k]];
        assert t in r.d.trades;
        assert t in d.trades;
      }
    }
  }

  /** Whatever the number of partitions and the assignment of owners to them: for any stream of events whose trades
      have distinct numbers and whose allocations stay on one owner, delivered as the ingress delivers it and nowhere
      fatal, every owner's books in its partition are those of a single ledger fed the whole stream, and the sums over
      all partitions are that ledger's sums. */
  lemma {:induction false} PartitionsDoNotMatter(route: Router, s: Ledger, ps: seq<Ledger>,
                                                 es: seq<Event>, seen: set<U64>)
    requires WellFormed(s) && AllWellFormed(ps) && Mirrored(route, s, ps) && |ps| > 0
    requires forall doc: U64 :: route(doc) < |ps|
    requires forall i :: 0 <= i < |es| ==> InScope(es[i])
    requires DistinctTrades(es, seen) && IdsWithin(s, seen) && forall i :: 0 <= i < |ps| ==> IdsWithin(ps[i], seen)
    requires AllSurvive(route, s, ps, es)
    ensures Mirrored(route, RunOne(s, es), RunMany(route, ps, es))
    decreases |es|
  {
    hide WellFormed, Dispatch, Mirrored, Survives, InScope;
    if es != [] {
      var e := es[0];
      FreshByIds(s, e, seen);
      forall i | 0 <= i < |ps|
        ensures FreshTrade(ps[i], e)
      {
        FreshByIds(ps[i], e, seen);
      }
      MirroredStep(route, s, ps, e);
      IdsStep(s, e, seen);
      var qs := DeliverAll(route, ps, e);
      forall i | 0 <= i < |ps|
        ensures IdsWithin(qs[i], seen + ExecutedId(e))
      {
        IdsStep(ps[i], e, seen);
      }
      PartitionsDoNotMatter(route, Dispatch(s, e).d, qs, es[1..], seen + ExecutedId(e));
    }
  }

  lemma FreshByIds(d: Ledger, e: Event, seen: set<U64>)
    requires IdsWithin(d, seen) && ExecutedId(e) !! seen
    ensures FreshTrade(d, e)
  {
  }

  /** From empty ledgers: the anchors summed over the partitions, as 64-bit counters, are those of one partition. */
  lemma ChecksumsAgree(route: Router, cap: Capacity, n: nat, es: seq<Event>)
    requires n > 0 && forall doc: U64 :: route(doc) < n
    requires forall i :: 0 <= i < |es| ==> InScope(es[i])
    requires DistinctTrades(es, {})
    requires AllWellFormed(seq(n, _ => NewLedger(cap)))
    requires AllSurvive(route, NewLedger(cap), seq(n, _ => NewLedger(cap)), es)
    ensures var ps := RunMany(route, seq(n, _ => NewLedger(cap)), es);
            var s := RunOne(NewLedger(cap), es);
            && TotalSums(ps) == SumsOf(s)
            && Wrap64(TotalSums(ps).custody) == Wrap64(CustodySum(s.custody))
            && Wrap64(TotalSums(ps).cash) == Wrap64(CashSum(s.accounts))
  {
    hide WellFormed, RunOne, RunMany, AllSurvive, Wrap64;
    var s, ps := NewLedger(cap), seq(n, _ => NewLedger(cap));
    Empties(route, s, ps, cap);
    PartitionsDoNotMatter(route, s, ps, es, {});
  }

  lemma Empties(route: Router, s: Ledger, ps: seq<Ledger>, cap: Capacity)
    requires s == NewLedger(cap) && forall i :: 0 <= i < |ps| ==> ps[i] == s
    ensures Mirrored(route, s, ps) && IdsWithin(s, {}) && forall i :: 0 <= i < |ps| ==> IdsWithin(ps[i], {})
  {
    hide WellFormed;
    TotalEmpty(ps, s);
  }

  lemma {:induction false} TotalEmpty(ps: seq<Ledger>, s: Ledger)
    requires s.custody == [] && s.accounts == [] && forall i :: 0 <= i < |ps| ==> ps[i] == s
    ensures TotalSums(ps) == Sums(0, 0)
    decreases |ps|
  {
    if ps != [] {
      TotalEmpty(ps[..|ps| - 1], s);
    }
  }
}
