/** Idempotency: within the window, no action is applied twice to the same owner. */
module AppliedOnce {
  import opened Bytes
  import opened Status
  import Rounding
  import opened Calendar
  import opened Idempotency
  import opened Ledgers
  import opened Applying
  import Footprints
  import Rejections

  // ---------------------------------------------------------------- days and turns

  function Current(s: TwoGen): set<AppliedKey> {
    if s.current then s.gen1 else s.gen0
  }

  function Previous(s: TwoGen): set<AppliedKey> {
    if s.current then s.gen0 else s.gen1
  }

  /** How often the generations have turned, and on which day last. */
  datatype Clock = Clock(turns: nat, rotation: Date)

  function ClockStep(c: Clock, today: Date, window: int): Clock {
    if c.rotation == 0 then Clock(c.turns, today)
    else if DayIndex(today) - DayIndex(c.rotation) < window then c
    else Clock(c.turns + 1, today)
  }

  /** The generations' clock once the days `ds` were opened: it depends on nothing else. */
  function ClockAfter(ds: seq<Date>, window: int): Clock {
    if ds == [] then Clock(0, 0)
    else
      ClockStep(ClockAfter(ds[..|ds| - 1], window), ds[|ds| - 1], window)
  }

  function TurnsBy(ds: seq<Date>, window: int, i: nat): nat
    requires i < |ds|
  {
    ClockAfter(ds[..i + 1], window).turns
  }

  /** Between these two days the generations turn twice, and yet they are less than the window apart. */
  predicate ForgetsBetween(ds: seq<Date>, window: int, i: nat, j: nat)
    requires i < j < |ds|
  {
    TurnsBy(ds, window, j) >= TurnsBy(ds, window, i) + 2 && DayIndex(ds[j]) - DayIndex(ds[i]) < window
  }

  /** The days on which the set forgets too early. */
  ghost predicate Forgets(ds: seq<Date>, window: int) {
    exists i, j :: 0 <= i < j < |ds| && ForgetsBetween(ds, window, i, j)
  }

  lemma {:induction false} TurnsGrow(ds: seq<Date>, window: int, i: nat, j: nat)
    requires i <= j < |ds|
    ensures TurnsBy(ds, window, i) <= TurnsBy(ds, window, j)
    decreases j
  {
    hide DayIndex;
    if i < j {
      TurnsGrow(ds, window, i, j - 1);
      assert ds[..j + 1][..j] == ds[..j];
    }
  }

  /** Days whose indexes increase never make it forget; real dates in order are such days. */
  lemma IncreasingNeverForgets(ds: seq<Date>, window: int)
    requires forall i, j :: 0 <= i < j < |ds| ==> DayIndex(ds[i]) < DayIndex(ds[j])
    requires forall i :: 0 <= i < |ds| ==> ds[i] != 0
    ensures !Forgets(ds, window)
  {
    hide DayIndex;
    forall i, j | 0 <= i < j < |ds|
      ensures !ForgetsBetween(ds, window, i, j)
    {
      TwoTurns(ds, window, i, j);
    }
  }

  /** After one more turn the last turning day is past `i`; after two it is a window past it. */
  lemma {:induction false} TwoTurns(ds: seq<Date>, window: int, i: nat, j: nat)
    requires i <= j < |ds|
    requires forall i, j :: 0 <= i < j < |ds| ==> DayIndex(ds[i]) < DayIndex(ds[j])
    requires forall i :: 0 <= i < |ds| ==> ds[i] != 0
    ensures ClockAfter(ds[..j + 1], window).rotation in ds[..j + 1]
    ensures TurnsBy(ds, window, j) >= TurnsBy(ds, window, i)
    ensures TurnsBy(ds, window, j) >= TurnsBy(ds, window, i) + 1 ==>
              DayIndex(ds[i]) < DayIndex(ClockAfter(ds[..j + 1], window).rotation)
    ensures TurnsBy(ds, window, j) >= TurnsBy(ds, window, i) + 2 ==>
              && DayIndex(ClockAfter(ds[..j + 1], window).rotation) - DayIndex(ds[i]) > window
              && DayIndex(ds[j]) - DayIndex(ds[i]) > window
    decreases j
  {
    hide DayIndex;
    assert ds[..j + 1][..j] == ds[..j] && ds[..j + 1][j] == ds[j];
    if j == 0 {
      assert ds[..0] == [];
    } else if i < j {
      TwoTurns(ds, window, i, j - 1);
    } else {
      TwoTurns(ds, window, i - 1, j - 1);
    }
  }

  lemma RealNeverForgets(ds: seq<Date>, window: int)
    requires forall i :: 0 <= i < |ds| ==> RealDate(ds[i])
    requires forall i, j :: 0 <= i < j < |ds| ==> ds[i] < ds[j]
    ensures !Forgets(ds, window)
  {
    forall i, j | 0 <= i < j < |ds|
      ensures DayIndex(ds[i]) < DayIndex(ds[j])
    {
      LaterDate(ds[i], ds[j]);
    }
    hide DayIndex;
    IncreasingNeverForgets(ds, window);
  }

  /** Numbers that are no dates can: with turns on 20251299 and 20259999, what was applied on 20251231 is forgotten on
      20260105, five days later. */
  lemma UnrealDatesForget()
    ensures Forgets([20251231, 20251299, 20259999, 20260105], 60)
  {
    UnrealDatesDisorder();
    hide DayIndex;
    var ds := [20251231, 20251299, 20259999, 20260105];
    assert ds[..4][..3] == ds[..3] && ds[..3][..2] == ds[..2] && ds[..2][..1] == ds[..1] && ds[..1][..0] == [];
    assert ClockAfter(ds[..1], 60) == Clock(0, 20251231);
    assert ClockAfter(ds[..2], 60) == Clock(1, 20251299);
    assert ClockAfter(ds[..3], 60) == Clock(2, 20259999);
    assert ClockAfter(ds[..4], 60) == Clock(2, 20259999);
    assert ForgetsBetween(ds, 60, 0, 3);
  }

  // ---------------------------------------------------------------- rows stay where they are

  /** Owners keep their rows. */
  ghost predicate Steady(d: Ledger, e: Ledger) {
    && e.cap == d.cap
    && forall doc :: doc in d.accountIndex ==> doc in e.accountIndex && e.accountIndex[doc] == d.accountIndex[doc]
  }

  lemma ExtendsSteady(d: Ledger, e: Ledger)
    requires WellFormed(d) && WellFormed(e) && Extends(d, e)
    ensures Steady(d, e)
  {
    forall doc | doc in d.accountIndex
      ensures doc in e.accountIndex && e.accountIndex[doc] == d.accountIndex[doc]
    {
      var row := d.accountIndex[doc];
      assert e.accounts[row] == d.accounts[row];
    }
  }

  lemma SteadyAgain(d: Ledger, e: Ledger, f: Ledger)
    requires Steady(d, e) && Steady(e, f)
    ensures Steady(d, f)
  {
  }

  lemma SameIndexSteady(d: Ledger, e: Ledger)
    requires e.accountIndex == d.accountIndex && e.cap == d.cap
    ensures Steady(d, e)
  {
  }

  /** The open day, its window and the day before are the same. */
  ghost predicate SameDays(d: Ledger, e: Ledger) {
    e.window == d.window && e.businessDate == d.businessDate && e.prevBusinessDate == d.prevBusinessDate
  }

  /** What an event does to the sets and the day. */
  ghost predicate Course(d: Ledger, e: Ledger) {
    && Steady(d, e) && e.actions == d.actions && e.income == d.income && SameDays(d, e)
    && e.tradeIndex == d.tradeIndex
  }

  lemma ExtendsFixed(d: Ledger, e: Ledger)
    requires WellFormed(d) && WellFormed(e) && Extends(d, e)
    ensures Course(d, e)
  {
    ExtendsSteady(d, e);
  }

  lemma CourseOn(d: Ledger, e: Ledger, f: Ledger)
    requires Course(d, e) && Course(e, f)
    ensures Course(d, f)
  {
    SteadyAgain(d, e, f);
  }

  lemma SameFixed(d: Ledger, e: Ledger)
    requires e.accountIndex == d.accountIndex && e.cap == d.cap
    requires e.actions == d.actions && e.income == d.income && SameDays(d, e)
    requires e.tradeIndex == d.tradeIndex
    ensures Course(d, e)
  {
    SameIndexSteady(d, e);
  }

  /** Of an execution, all but the new trade itself. */
  ghost predicate CourseBut(d: Ledger, e: Ledger, id: U64) {
    && Steady(d, e) && e.actions == d.actions && e.income == d.income && SameDays(d, e)
    && e.tradeIndex.Keys <= d.tradeIndex.Keys + {id}
  }

  lemma CourseIsBut(d: Ledger, e: Ledger, id: U64)
    requires Course(d, e)
    ensures CourseBut(d, e, id)
  {
  }

  lemma CourseThenBut(d: Ledger, e: Ledger, f: Ledger, id: U64)
    requires Course(d, e) && CourseBut(e, f, id)
    ensures CourseBut(d, f, id)
  {
    SteadyAgain(d, e, f);
  }

  lemma ExecutedCourse(d: Ledger, x: Execution)
    requires WellFormed(d)
    ensures CourseBut(d, ApplyTradeExecuted(d, x).d, x.id)
  {
    hide WellFormed, InternAccount, InternInstrument, InternPosition, ExecutionError, BucketsNonNegative;
    hide Extends, Course;
    hide Amount, ExecuteBalances, CourseBut;
    SameFixed(d, d);
    CourseIsBut(d, d, x.id);
    if |d.trades| < d.cap.trades && x.id !in d.tradeIndex {
      var i1 := InternAccount(d, x.account);
      if i1.Row? {
        ExtendsFixed(d, i1.d);
        CourseIsBut(d, i1.d, x.id);
        var i2 := InternInstrument(i1.d, x.instrument);
        if i2.Row? {
          ExtendsAgain(d, i1.d, i2.d);
          ExtendsFixed(d, i2.d);
          CourseIsBut(d, i2.d, x.id);
          ExtendsSizes(i1.d, i2.d);
          var slot := SlotOf(i2.d.window, x.date);
          if i2.d.instruments[i2.row].factor > 0 && slot.InSlot? {
            var i3 := InternPosition(i2.d, i1.row, i2.row);
            if i3.Row? {
              ExtendsAgain(d, i2.d, i3.d);
              ExtendsFixed(d, i3.d);
              CourseIsBut(d, i3.d, x.id);
              ExtendsTables(d, i3.d);
              ExtendsSizes(i2.d, i3.d);
              InstrumentKept(i2.d, i3.d, i2.row);
              if ExecutionError(x, i3.d.custody[i3.row].b) == Ok {
                RowsFixed(i3.d, x, i1.row, i2.row, i3.row, slot.k);
                CourseThenBut(d, i3.d, WithTrade(i3.d, x, i1.row, i2.row, i3.row, slot.k), x.id);
              }
            }
          }
        }
      }
    }
  }

  lemma RowsFixed(d: Ledger, x: Execution, acct: nat, i: nat, pos: nat, k: nat)
    requires WellFormed(d) && acct < |d.accounts| && i < |d.instruments| && pos < |d.custody| && k < 3
    requires d.instruments[i].factor > 0 && x.id !in d.tradeIndex && |d.trades| < d.cap.trades
    ensures CourseBut(d, WithTrade(d, x, acct, i, pos, k), x.id)
  {
    hide WellFormed, Amount, ExecuteBalances;
    SameIndexSteady(d, WithTrade(d, x, acct, i, pos, k));
  }

  lemma AllocatedCourse(d: Ledger, a: Allocation)
    requires WellFormed(d)
    ensures Course(d, ApplyTradeAllocated(d, a).d)
  {
    hide WellFormed, InternAccount, AllocateRows, Extends, Course;
    SameFixed(d, d);
    RowsInRange(d);
    if a.trade in d.tradeIndex && NextState(d.trades[d.tradeIndex[a.trade]].state, Allocate) != Absent {
      var i1 := InternAccount(d, a.from);
      if i1.Row? {
        ExtendsFixed(d, i1.d);
        var i2 := InternAccount(i1.d, a.to);
        if i2.Row? {
          ExtendsAgain(d, i1.d, i2.d);
          ExtendsTables(d, i2.d);
          ExtendsFixed(d, i2.d);
          ExtendsSizes(i1.d, i2.d);
          AllocateRowsCourse(i2.d, a, d.tradeIndex[a.trade], i1.row, i2.row);
          CourseOn(d, i2.d, AllocateRows(i2.d, a, d.tradeIndex[a.trade], i1.row, i2.row).d);
        }
      }
    }
  }

  lemma AllocateRowsCourse(d: Ledger, a: Allocation, t: nat, from: nat, to: nat)
    requires WellFormed(d) && t < |d.trades| && from < |d.accounts| && to < |d.accounts|
    ensures Course(d, AllocateRows(d, a, t, from, to).d)
  {
    hide WellFormed, AllocateAcross, Fixed, Course;
    SameFixed(d, d);
    Rejections.TradeRow(d, t);
    FixedCourse(d, t);
    var slot := SlotOf(d.window, a.date);
    if slot.InSlot? && from != to {
      AcrossCourse(d, a, t, from, to, slot.k);
    }
  }

  lemma FixedCourse(d: Ledger, t: nat)
    requires WellFormed(d) && t < |d.trades|
    ensures Course(d, Fixed(d, t))
  {
    hide WellFormed, Course;
    SameFixed(d, Fixed(d, t));
  }

  lemma AcrossCourse(d: Ledger, a: Allocation, t: nat, from: nat, to: nat, k: nat)
    requires WellFormed(d) && t < |d.trades| && from < |d.accounts| && to < |d.accounts| && from != to && k < 3
    requires d.trades[t].instrument < |d.instruments|
    ensures Course(d, AllocateAcross(d, a, t, from, to, k).d)
  {
    hide WellFormed, InternPosition, AllocationError, BucketsNonNegative, Moved, Fixed, Extends, Course;
    SameFixed(d, d);
    var i := d.trades[t].instrument;
    var i1 := InternPosition(d, from, i);
    if i1.Row? {
      ExtendsFixed(d, i1.d);
      ExtendsSizes(d, i1.d);
      var i2 := InternPosition(i1.d, to, i);
      if i2.Row? {
        ExtendsAgain(d, i1.d, i2.d);
        ExtendsFixed(d, i2.d);
        ExtendsTables(d, i2.d);
        ExtendsSizes(i1.d, i2.d);
        var e := Moved(i2.d, a, t, from, to, i1.row, i2.row, k);
        MovedCourse(i2.d, a, t, from, to, i1.row, i2.row, k);
        CourseOn(d, i2.d, e);
        FixedCourse(e, t);
        CourseOn(d, e, Fixed(e, t));
      }
    }
  }

  lemma MovedCourse(d: Ledger, a: Allocation, t: nat, from: nat, to: nat, p: nat, q: nat, k: nat)
    requires WellFormed(d) && t < |d.trades| && from < |d.accounts| && to < |d.accounts| && k < 3
    requires p < |d.custody| && q < |d.custody| && d.trades[t].instrument < |d.instruments|
    ensures Course(d, Moved(d, a, t, from, to, p, q, k))
  {
    hide WellFormed, AllocateFrom, AllocateTo, Course;
    SameFixed(d, Moved(d, a, t, from, to, p, q, k));
  }

  lemma SettledCourse(d: Ledger, s: Settlement)
    requires WellFormed(d)
    ensures Course(d, ApplyTradeSettled(d, s).d)
  {
    hide WellFormed, InternAccount, InternInstrument, SettleBuckets, SettledRows, BucketsNonNegative, Extends, Course;
    SameFixed(d, d);
    var i1 := InternAccount(d, s.account);
    if i1.Row? {
      ExtendsFixed(d, i1.d);
      var i2 := InternInstrument(i1.d, s.instrument);
      if i2.Row? {
        ExtendsAgain(d, i1.d, i2.d);
        ExtendsFixed(d, i2.d);
        ExtendsSizes(i1.d, i2.d);
        RowsInRange(i2.d);
        var key := PositionKey(i1.row, i2.row);
        if key in i2.d.positionIndex {
          var pos := i2.d.positionIndex[key];
          var r := SettleBuckets(i2.d.custody[pos].b, i2.d.accounts[i1.row].m, s, SlotOf(i2.d.window, s.date));
          if r.Moves? {
            SettledRowsCourse(i2.d, s, i1.row, i2.row, pos, r.b, r.m);
            CourseOn(d, i2.d, SettledRows(i2.d, s, i1.row, i2.row, pos, r.b, r.m));
          }
        }
      }
    }
  }

  lemma SettledRowsCourse(d: Ledger, s: Settlement, acct: nat, i: nat, pos: nat, b: Balances, m: Funds)
    requires WellFormed(d) && acct < |d.accounts| && pos < |d.custody|
    ensures Course(d, SettledRows(d, s, acct, i, pos, b, m))
  {
    hide WellFormed, Course, Noted;
    SameFixed(d, SettledRows(d, s, acct, i, pos, b, m));
  }

  lemma NettedCourse(d: Ledger, account: U64, net: int, date: Date, count: nat)
    requires WellFormed(d)
    ensures Course(d, ApplyBatchNetted(d, account, net, date, count).d)
  {
    hide WellFormed, InternAccount, CountNetted, Extends, Course;
    SameFixed(d, d);
    var i1 := InternAccount(d, account);
    if i1.Row? {
      ExtendsFixed(d, i1.d);
      SameFixed(i1.d, ApplyBatchNetted(d, account, net, date, count).d);
      CourseOn(d, i1.d, ApplyBatchNetted(d, account, net, date, count).d);
    }
  }

  lemma ClosingCourse(d: Ledger, q: Closing)
    requires WellFormed(d)
    ensures Course(d, ApplyClosingPrice(d, q).d)
  {
    hide WellFormed, InternInstrument, Extends, Course;
    SameFixed(d, d);
    var i1 := InternInstrument(d, q.instrument);
    if q.factor != 0 && i1.Row? {
      ExtendsFixed(d, i1.d);
      SameFixed(i1.d, ApplyClosingPrice(d, q).d);
      CourseOn(d, i1.d, ApplyClosingPrice(d, q).d);
    }
  }

  lemma {:induction false} ReconciledCourse(d: Ledger, date: Date, ds: seq<Divergence>)
    requires WellFormed(d)
    ensures Course(d, Reconciled(d, date, ds))
    decreases |ds|
  {
    hide WellFormed, Course;
    SameFixed(d, d);
    if ds != [] {
      var x := ExceptionRecord(ds[0].account, ds[0].qtyDelta, ds[0].instrument, date, QtyMismatch);
      var e := PushException(d, x, true);
      SameFixed(d, e);
      ReconciledCourse(e, date, ds[1..]);
      CourseOn(d, e, Reconciled(e, date, ds[1..]));
    }
  }

  /** The row and key of an accepted action or income. */
  function KeyIn(d: Ledger, id: U64, doc: U64): AppliedKey
    requires doc in d.accountIndex
  {
    AppliedKey(id, d.accountIndex[doc])
  }

  /** A corporate action inserts its own key, or leaves the set alone; accepted, it inserted it. */
  lemma ActionCourse(d: Ledger, c: Action)
    requires WellFormed(d)
    ensures var r := ApplyCorporateAction(d, c);
            && Steady(d, r.d) && r.d.income == d.income && SameDays(d, r.d)
            && r.d.tradeIndex == d.tradeIndex
            && (r.d.actions == d.actions ||
                (c.account in r.d.accountIndex
                 && Insert(d.actions, KeyIn(r.d, c.id, c.account), TableSize(d.cap.actionsPerGen)) == New(r.d.actions)))
            && (r.st == Ok ==> r.d.actions != d.actions)
  {
    hide WellFormed, InternAccount, InternInstrument, InternPosition, ActedRows, ActionBuckets, Insert, ActionError;
    hide BucketsNonNegative, Extends, Steady;
    SameIndexSteady(d, d);
    var i1 := InternAccount(d, c.account);
    if i1.Row? {
      ExtendsFixed(d, i1.d);
      var i2 := InternInstrument(i1.d, c.instrument);
      if i2.Row? {
        ExtendsAgain(d, i1.d, i2.d);
        ExtendsFixed(d, i2.d);
        ExtendsSizes(i1.d, i2.d);
        var i3 := InternPosition(i2.d, i1.row, i2.row);
        if i3.Row? {
          ExtendsAgain(d, i2.d, i3.d);
          ExtendsFixed(d, i3.d);
          ExtendsSizes(i2.d, i3.d);
          CapOf(d, i3.d);
          var key := AppliedKey(c.id, i1.row);
          var ins := Insert(i3.d.actions, key, TableSize(i3.d.cap.actionsPerGen));
          if ActionError(c) == Ok && ins.New? {
            Rejections.InsertGrows(i3.d.actions, key, TableSize(i3.d.cap.actionsPerGen));
            var e := WithActions(i3.d, key, ins.after);
            SameIndexSteady(i3.d, e);
            SteadyAgain(d, i3.d, e);
            ExtendsAgain(i1.d, i2.d, i3.d);
            Footprints.AccountRows(i1.d, i3.d, i1.row, i1.row);
            Rejections.OwnerRow(e, i1.row);
            var acts := ActionBuckets(e.custody[i3.row].b, c);
            if acts.Acts? {
              var f := ActedRows(e, c, i1.row, i3.row, acts.b, acts.moved, acts.cash);
              ActedCourse(e, c, i1.row, i3.row, acts.b, acts.moved, acts.cash);
              SteadyAgain(d, e, f);
            }
          }
        }
      }
    }
  }

  lemma CapOf(d: Ledger, e: Ledger)
    requires Steady(d, e)
    ensures e.cap == d.cap
  {
  }

  lemma ActedCourse(d: Ledger, c: Action, acct: nat, pos: nat, b: Balances, moved: int, cash: int)
    requires WellFormed(d) && acct < |d.accounts| && pos < |d.custody|
    ensures var f := ActedRows(d, c, acct, pos, b, moved, cash);
            Course(d, f) && f.accountIndex == d.accountIndex
  {
    hide WellFormed, Noted, Course;
    SameFixed(d, ActedRows(d, c, acct, pos, b, moved, cash));
  }

  /** Income inserts its own key, or leaves the set alone; credited, it inserted it. */
  lemma DividendCourse(d: Ledger, p: Dividend)
    requires WellFormed(d)
    ensures var r := ApplyDividendPaid(d, p);
            && Steady(d, r.d) && r.d.actions == d.actions && SameDays(d, r.d)
            && r.d.tradeIndex == d.tradeIndex
            && (r.st != Ok ==> r.d.income == d.income)
            && (r.st == Ok ==>
                  && p.account in r.d.accountIndex
                  && Insert(d.income, KeyIn(r.d, p.id, p.account), TableSize(d.cap.actionsPerGen)) == New(r.d.income))
  {
    hide WellFormed, InternAccount, Insert, Rounding.MulDiv, Extends, Steady;
    SameIndexSteady(d, d);
    var i1 := InternAccount(d, p.account);
    if i1.Row? {
      ExtendsFixed(d, i1.d);
      CapOf(d, i1.d);
      SameIndexSteady(i1.d, ApplyDividendPaid(d, p).d);
      SteadyAgain(d, i1.d, ApplyDividendPaid(d, p).d);
      Rejections.OwnerRow(i1.d, i1.row);
    }
  }

  lemma DayCourse(d: Ledger, today: Date, d1: Date, d2: Date, previous: Date)
    requires WellFormed(d)
    ensures var r := ApplyDayOpened(d, today, d1, d2, previous);
            && Steady(d, r.d)
            && if r.st == Ok then
                 && r.d.businessDate == today != 0 && (d.businessDate != 0 ==> d.businessDate < today)
                 && r.d.actions == MaybeRotate(d.actions, today, d.cap.windowDays)
                 && r.d.income == MaybeRotate(d.income, today, d.cap.windowDays)
               else r.d == d
  {
    hide WellFormed, MaybeRotate, Steady;
    SameIndexSteady(d, ApplyDayOpened(d, today, d1, d2, previous).d);
  }

  // ---------------------------------------------------------------- over whole runs

  datatype Application = Application(id: U64, doc: U64)

  /** The set after the days `ds`, the last of them today: its clock is theirs, and it still holds every key of `last`,
      which says on which day, by its index, each was last applied, unless the generations turned twice since. */
  ghost predicate Recalls(d: Ledger, s: TwoGen, ds: seq<Date>, last: map<Application, int>) {
    && ds != [] && d.businessDate == ds[|ds| - 1] != 0
    && s.rotation == ClockAfter(ds, d.cap.windowDays).rotation != 0
    && forall k :: k in last ==> exists i :: 0 <= i < |ds| && Recalled(d, s, ds, last[k], k, i)
  }

  /** The key was last applied on day `i`, and is where the turns since have left it. */
  ghost predicate Recalled(d: Ledger, s: TwoGen, ds: seq<Date>, day: int, k: Application, i: nat)
    requires i < |ds|
  {
    var turns := TurnsBy(ds, d.cap.windowDays, |ds| - 1) - TurnsBy(ds, d.cap.windowDays, i);
    && k.doc in d.accountIndex && day == DayIndex(ds[i]) && turns >= 0
    && (turns == 0 ==> KeyIn(d, k.id, k.doc) in Current(s))
    && (turns == 1 ==> KeyIn(d, k.id, k.doc) in Previous(s))
  }

  lemma RecallsCourse(d: Ledger, e: Ledger, s: TwoGen, ds: seq<Date>, last: map<Application, int>)
    requires Recalls(d, s, ds, last) && Steady(d, e) && e.businessDate == d.businessDate
    ensures Recalls(e, s, ds, last)
  {
    hide DayIndex, ClockAfter;
    forall k | k in last
      ensures exists i :: 0 <= i < |ds| && Recalled(e, s, ds, last[k], k, i)
    {
      var i :| 0 <= i < |ds| && Recalled(d, s, ds, last[k], k, i);
      assert Recalled(e, s, ds, last[k], k, i);
    }
  }

  lemma ClockSnoc(ds: seq<Date>, today: Date, window: int)
    requires ds != []
    ensures ClockAfter(ds + [today], window) == ClockStep(ClockAfter(ds, window), today, window)
    ensures ClockAfter((ds + [today])[..|ds| + 1], window) == ClockAfter(ds + [today], window)
    ensures forall i :: 0 <= i < |ds| ==> TurnsBy(ds + [today], window, i) == TurnsBy(ds, window, i)
    ensures TurnsBy(ds, window, |ds| - 1) == ClockAfter(ds, window).turns
  {
    hide ClockStep;
    var more := ds + [today];
    assert more[..|ds|] == ds && more[..|ds| + 1] == more && ds[..|ds|] == ds;
    forall i | 0 <= i < |ds|
      ensures TurnsBy(more, window, i) == TurnsBy(ds, window, i)
    {
      assert more[..i + 1] == ds[..i + 1];
    }
  }

  lemma RecallsDay(d: Ledger, e: Ledger, s: TwoGen, ds: seq<Date>, last: map<Application, int>, today: Date)
    requires Recalls(d, s, ds, last) && Steady(d, e) && e.businessDate == today != 0
    ensures Recalls(e, MaybeRotate(s, today, d.cap.windowDays), ds + [today], last)
  {
    ClockSnoc(ds, today, d.cap.windowDays);
    var t, more := MaybeRotate(s, today, d.cap.windowDays), ds + [today];
    hide DayIndex, ClockAfter, Recalled;
    forall k | k in last
      ensures exists i :: 0 <= i < |more| && Recalled(e, t, more, last[k], k, i)
    {
      var i :| 0 <= i < |ds| && Recalled(d, s, ds, last[k], k, i);
      RecalledDay(d, e, s, ds, last[k], today, k, i);
    }
  }

  lemma RecalledDay(d: Ledger, e: Ledger, s: TwoGen, ds: seq<Date>, day: int, today: Date, k: Application, i: nat)
    requires i < |ds| && Recalled(d, s, ds, day, k, i) && Steady(d, e) && today != 0
    requires s.rotation == ClockAfter(ds, d.cap.windowDays).rotation != 0
    ensures Recalled(e, MaybeRotate(s, today, d.cap.windowDays), ds + [today], day, k, i)
  {
    hide DayIndex, ClockAfter, TurnsBy;
    var w, n, more := d.cap.windowDays, |ds|, ds + [today];
    ClockSnoc(ds, today, w);
    WholeTurns(ds, w);
    WholeTurns(more, w);
    assert TurnsBy(more, w, i) == TurnsBy(ds, w, i) && more[i] == ds[i];
    hide MaybeRotate;
    RotatedOnTurn(s, today, w, ClockAfter(ds, w).turns);
  }

  lemma WholeTurns(ds: seq<Date>, window: int)
    requires ds != []
    ensures TurnsBy(ds, window, |ds| - 1) == ClockAfter(ds, window).turns
  {
    assert ds[..|ds|] == ds;
  }

  /** A turn of the clock is a rotation of the generations; without one both stay. */
  lemma RotatedOnTurn(s: TwoGen, today: Date, window: int, turns: nat)
    requires s.rotation != 0
    ensures var t, c := MaybeRotate(s, today, window), ClockStep(Clock(turns, s.rotation), today, window);
            && turns <= c.turns <= turns + 1
            && (c.turns == turns ==> Current(t) == Current(s) && Previous(t) == Previous(s))
            && (c.turns > turns ==> Previous(t) == Current(s))
  {
    hide DayIndex;
  }

  lemma RecallsInsert(d: Ledger, e: Ledger, s: TwoGen, t: TwoGen, ds: seq<Date>, last: map<Application, int>,
                      k: Application, slots: nat)
    requires Recalls(d, s, ds, last) && Steady(d, e) && e.businessDate == d.businessDate
    requires k.doc in e.accountIndex && Insert(s, KeyIn(e, k.id, k.doc), slots) == New(t)
    requires !Forgets(ds, d.cap.windowDays)
    ensures Recalls(e, t, ds, last[k := DayIndex(d.businessDate)]) && Recalls(e, t, ds, last)
    ensures k in last ==> DayIndex(d.businessDate) - last[k] >= d.cap.windowDays
  {
    hide DayIndex, ClockAfter;
    var last' := last[k := DayIndex(d.businessDate)];
    assert Recalled(e, t, ds, DayIndex(d.businessDate), k, |ds| - 1);
    forall j | j in last
      ensures exists i :: 0 <= i < |ds| && Recalled(e, t, ds, last[j], j, i)
    {
      var i :| 0 <= i < |ds| && Recalled(d, s, ds, last[j], j, i);
      assert Recalled(e, t, ds, last[j], j, i);
    }
    if k in last {
      var i :| 0 <= i < |ds| && Recalled(d, s, ds, last[k], k, i);
      LongAgo(ds, d.cap.windowDays, i);
    }
  }

  /** Two turns ago is, on days that do not forget, at least the window ago. */
  lemma LongAgo(ds: seq<Date>, window: int, i: nat)
    requires i < |ds| && !Forgets(ds, window) && TurnsBy(ds, window, |ds| - 1) >= TurnsBy(ds, window, i) + 2
    ensures DayIndex(ds[|ds| - 1]) - DayIndex(ds[i]) >= window
  {
    hide DayIndex, ClockAfter;
    assert i < |ds| - 1 && !ForgetsBetween(ds, window, i, |ds| - 1);
  }

  /** The key an event applies when it is accepted, for actions or for income. */
  datatype Keyed = NoKey | Key(k: Application)

  function ActionKey(e: Event): Keyed {
    match e
    case CorporateActionApplied(c) => Key(Application(c.id, c.account))
    case _ => NoKey
  }

  function IncomeKey(e: Event): Keyed {
    match e
    case DividendPaid(p) => Key(Application(p.id, p.account))
    case _ => NoKey
  }

  function Noting(last: map<Application, int>, k: Keyed, st: Err, day: int): map<Application, int> {
    if k.Key? && st == Ok then last[k.k := day] else last
  }

  /** In this run, from a ledger where keys were last applied on the days `actions` and `income` say, every accepted
      application comes at least the window after the last one of the same key. */
  ghost predicate Spaced(d: Ledger, lsn: nat, es: seq<Event>, actions: map<Application, int>,
                         income: map<Application, int>)
    requires WellFormed(d)
    decreases |es|
  {
    es == [] ||
    (var a := Apply(d, lsn, es[0]);
     var day := DayIndex(d.businessDate);
     IsFatal(a.st) ||
     (&& (a.st == Ok && ActionKey(es[0]).Key? && ActionKey(es[0]).k in actions ==>
            day - actions[ActionKey(es[0]).k] >= d.cap.windowDays)
      && (a.st == Ok && IncomeKey(es[0]).Key? && IncomeKey(es[0]).k in income ==>
            day - income[IncomeKey(es[0]).k] >= d.cap.windowDays)
      && Spaced(a.d, lsn + 1, es[1..], Noting(actions, ActionKey(es[0]), a.st, day),
                Noting(income, IncomeKey(es[0]), a.st, day))))
  }

  /** The days a stream opens after `last`: those later, by number, than every day before them. */
  function Opened(last: Date, es: seq<Event>): seq<Date>
    decreases |es|
  {
    if es == [] then []
    else if es[0].DayOpened? && es[0].today != 0 && (last != 0 ==> last < es[0].today) then
      [es[0].today] + Opened(es[0].today, es[1..])
    else Opened(last, es[1..])
  }

  lemma FewerNeverForget(ds: seq<Date>, more: seq<Date>, window: int)
    requires !Forgets(ds + more, window)
    ensures !Forgets(ds, window)
  {
    hide DayIndex, ClockAfter;
    forall i, j | 0 <= i < j < |ds|
      ensures !ForgetsBetween(ds, window, i, j)
    {
      assert (ds + more)[..i + 1] == ds[..i + 1] && (ds + more)[..j + 1] == ds[..j + 1];
      assert !ForgetsBetween(ds + more, window, i, j);
    }
  }

  /** The days after one event. */
  function DaysAfter(ds: seq<Date>, e: Event, st: Err): seq<Date> {
    if e.DayOpened? && st == Ok then ds + [e.today] else ds
  }

  /** One event keeps both memories, and an accepted application is far enough from the last. */
  lemma StepRecalls(d: Ledger, e: Event, ds: seq<Date>, actions: map<Application, int>, income: map<Application, int>)
    requires WellFormed(d) && Recalls(d, d.actions, ds, actions) && Recalls(d, d.income, ds, income)
    requires !Forgets(ds, d.cap.windowDays)
    ensures var r := Dispatch(d, e);
            var day := DayIndex(d.businessDate);
            && Recalls(r.d, r.d.actions, DaysAfter(ds, e, r.st), Noting(actions, ActionKey(e), r.st, day))
            && Recalls(r.d, r.d.income, DaysAfter(ds, e, r.st), Noting(income, IncomeKey(e), r.st, day))
            && (r.st == Ok && ActionKey(e).Key? && ActionKey(e).k in actions ==>
                  day - actions[ActionKey(e).k] >= d.cap.windowDays)
            && (r.st == Ok && IncomeKey(e).Key? && IncomeKey(e).k in income ==>
                  day - income[IncomeKey(e).k] >= d.cap.windowDays)
            && (e.DayOpened? ==>
                  (r.st == Ok <==> e.today != 0 && (d.businessDate != 0 ==> d.businessDate < e.today))
                      && !IsFatal(r.st))
            && r.d.businessDate == (if e.DayOpened? && r.st == Ok then e.today else d.businessDate)
            && r.d.cap == d.cap
  {
    hide WellFormed, Recalls, DayIndex, Forgets, Insert, MaybeRotate, ApplyTradeExecuted, ApplyTradeAllocated;
    hide ApplyTradeSettled, ApplyCorporateAction, ApplyBatchNetted, Reconciled, ApplyDividendPaid, TurnDay, Compacted;
    hide ApplyClosingPrice, Steady;
    var r := Dispatch(d, e);
    match e
    case DayOpened(today, d1, d2, previous) =>
      DayCourse(d, today, d1, d2, previous);
      CapOf(d, r.d);
      if r.st == Ok {
        RecallsDay(d, r.d, d.actions, ds, actions, today);
        RecallsDay(d, r.d, d.income, ds, income, today);
      }
    case CorporateActionApplied(c) =>
      ActionCourse(d, c);
      CapOf(d, r.d);
      RecallsCourse(d, r.d, d.income, ds, income);
      RecallsCourse(d, r.d, d.actions, ds, actions);
      if r.d.actions != d.actions {
        RecallsInsert(d, r.d, d.actions, r.d.actions, ds, actions, Application(c.id, c.account),
                      TableSize(d.cap.actionsPerGen));
      }
    case DividendPaid(p) =>
      DividendCourse(d, p);
      CapOf(d, r.d);
      RecallsCourse(d, r.d, d.income, ds, income);
      RecallsCourse(d, r.d, d.actions, ds, actions);
      if r.st == Ok {
        RecallsInsert(d, r.d, d.income, r.d.income, ds, income, Application(p.id, p.account),
                      TableSize(d.cap.actionsPerGen));
      }
    case _ =>
      OtherCourse(d, e);
      CapOf(d, r.d);
      RecallsCourse(d, r.d, d.income, ds, income);
      RecallsCourse(d, r.d, d.actions, ds, actions);
  }

  function ExecutedId(e: Event): set<U64> {
    if e.TradeExecuted? then {e.x.id} else {}
  }

  lemma OtherCourse(d: Ledger, e: Event)
    requires WellFormed(d) && !e.DayOpened? && !e.CorporateActionApplied? && !e.DividendPaid?
    ensures Steady(d, Dispatch(d, e).d)
    ensures var r := Dispatch(d, e).d;
            r.actions == d.actions && r.income == d.income && SameDays(d, r)
    ensures Dispatch(d, e).d.tradeIndex.Keys <= d.tradeIndex.Keys + ExecutedId(e)
  {
    hide WellFormed, ApplyTradeExecuted, ApplyTradeAllocated, ApplyTradeSettled, ApplyBatchNetted, Reconciled;
    hide ApplyClosingPrice, Steady;
    match e
    case TradeExecuted(x) => ExecutedCourse(d, x);
    case TradeAllocated(a) => AllocatedCourse(d, a);
    case TradeSettled(s) => SettledCourse(d, s);
    case BatchNetted(account, net, date, count) => NettedCourse(d, account, net, date, count);
    case ClosingPriceSet(q) => ClosingCourse(d, q);
    case CustodyReconciled(date, ds) => ReconciledCourse(d, date, ds);
    case EodMarked(_, _, _) => SameIndexSteady(d, Dispatch(d, e).d);
    case Unreadable(_) => SameIndexSteady(d, Dispatch(d, e).d);
    case _ =>
  }

  /** Idempotency over whole runs: after the days `ds`, if neither they nor those the stream goes on to open make the
      set forget, two accepted applications of one action (or income) to one owner are at least the window apart. It
      speaks of the ledger, to which the partition keeps under `PartitionStates.KeepsTrades`. */
  lemma {:induction false} AppliedOncePerWindow(d: Ledger, lsn: nat, es: seq<Event>, ds: seq<Date>,
                                                actions: map<Application, int>, income: map<Application, int>)
    requires WellFormed(d) && Recalls(d, d.actions, ds, actions) && Recalls(d, d.income, ds, income)
    requires !Forgets(ds + Opened(d.businessDate, es), d.cap.windowDays)
    ensures Spaced(d, lsn, es, actions, income)
    decreases |es|
  {
    hide WellFormed, Recalls, Dispatch, DayIndex, Forgets;
    if es != [] {
      var a := Apply(d, lsn, es[0]);
      var day := DayIndex(d.businessDate);
      FewerNeverForget(ds, Opened(d.businessDate, es), d.cap.windowDays);
      StepRecalls(d, es[0], ds, actions, income);
      var more := DaysAfter(ds, es[0], a.st);
      StampRecalls(Dispatch(d, es[0]).d, lsn, a.d.actions, more, Noting(actions, ActionKey(es[0]), a.st, day));
      StampRecalls(Dispatch(d, es[0]).d, lsn, a.d.income, more, Noting(income, IncomeKey(es[0]), a.st, day));
      if !IsFatal(a.st) {
        assert ds + Opened(d.businessDate, es) == more + Opened(a.d.businessDate, es[1..]);
        AppliedOncePerWindow(a.d, lsn + 1, es[1..], more, Noting(actions, ActionKey(es[0]), a.st, day),
                             Noting(income, IncomeKey(es[0]), a.st, day));
      }
    }
  }

  lemma StampRecalls(d: Ledger, lsn: nat, s: TwoGen, ds: seq<Date>, last: map<Application, int>)
    requires Recalls(d, s, ds, last)
    ensures Recalls(d.(appliedLsn := lsn), s, ds, last)
  {
    RecallsCourse(d, d.(appliedLsn := lsn), s, ds, last);
  }

  /** The first day opened starts the memory. */
  lemma FirstDay(d: Ledger, today: Date, d1: Date, d2: Date, previous: Date)
    requires WellFormed(d) && d.businessDate == 0 && d.actions.rotation == 0 && d.income.rotation == 0 && today != 0
    ensures var r := ApplyDayOpened(d, today, d1, d2, previous);
            r.st == Ok && Recalls(r.d, r.d.actions, [today], map[]) && Recalls(r.d, r.d.income, [today], map[])
  {
    DayCourse(d, today, d1, d2, previous);
    OneDay(today, d.cap.windowDays);
    hide DayIndex, ClockAfter, ApplyDayOpened, WellFormed;
    var r := ApplyDayOpened(d, today, d1, d2, previous);
    assert r.st == Ok by {
      OpensFirst(d, today, d1, d2, previous);
    }
    CapOf(d, r.d);
  }

  lemma OpensFirst(d: Ledger, today: Date, d1: Date, d2: Date, previous: Date)
    requires WellFormed(d) && d.businessDate == 0 && today != 0
    ensures ApplyDayOpened(d, today, d1, d2, previous).st == Ok
  {
    hide WellFormed, TurnDay, Compacted;
  }

  lemma OneDay(today: Date, window: int)
    ensures ClockAfter([today], window) == Clock(0, today)
  {
    assert [today][..0] == [];
  }

  // ---------------------------------------------------------------- and no other days will do

  /** Income of nothing, for owner 1. */
  const PAID := DividendPaid(Dividend(1, 1, 0, 0, 0, 0, 0, 0, 0, true))
  const KEY := AppliedKey(1, 0)

  ghost predicate InOrder(ds: seq<Date>) {
    (forall i :: 0 <= i < |ds| ==> ds[i] != 0) && forall i, j :: 0 <= i < j < |ds| ==> ds[i] < ds[j]
  }

  /** The days from the `n`-th on, the same income paid on days `i` and `j`. */
  function StreamOf(ds: seq<Date>, n: nat, i: nat, j: nat): seq<Event>
    requires n <= |ds|
    decreases |ds| - n
  {
    if n == |ds| then []
    else
      [DayOpened(ds[n], 0, 0, 0)] + (if n == i || n == j then [PAID] else []) + StreamOf(ds, n + 1, i, j)
  }

  lemma {:induction false} StreamOpens(ds: seq<Date>, n: nat, i: nat, j: nat, last: Date)
    requires n <= |ds| && InOrder(ds) && (n < |ds| && last != 0 ==> last < ds[n])
    ensures Opened(last, StreamOf(ds, n, i, j)) == ds[n..]
    decreases |ds| - n
  {
    if n < |ds| {
      var rest := StreamOf(ds, n + 1, i, j);
      StreamOpens(ds, n + 1, i, j, ds[n]);
      var all := StreamOf(ds, n, i, j);
      if n == i || n == j {
        assert all[1..] == [PAID] + rest && ([PAID] + rest)[1..] == rest;
      } else {
        assert all[1..] == rest;
      }
    }
  }

  /** Where the key is, `turns` turns after it was applied; from two turns on, nowhere. */
  predicate KeyAfter(s: TwoGen, turns: int) {
    && Current(s) == (if turns == 0 then {KEY} else {})
    && Previous(s) == (if turns == 1 then {KEY} else {})
  }

  /** How many turns ago the income was paid; long ago, if it was not. */
  function Ago(ds: seq<Date>, window: int, m: nat, i: nat, paid: bool): int
    requires m <= |ds| && (paid ==> i < m)
  {
    if paid then TurnsBy(ds, window, m - 1) - TurnsBy(ds, window, i) else 2
  }

  /** A ledger on its `m`-th day, the income paid on day `i` or not yet. */
  ghost predicate OnDay(d: Ledger, cap: Capacity, ds: seq<Date>, m: nat, i: nat, paid: bool) {
    && WellFormed(d) && d.cap == cap && cap.accounts >= 2 && m <= |ds| && (paid ==> i < m)
    && d.businessDate == (if m == 0 then 0 else ds[m - 1])
    && d.income.rotation == ClockAfter(ds[..m], cap.windowDays).rotation
    && Ago(ds, cap.windowDays, m, i, paid) >= 0 && KeyAfter(d.income, Ago(ds, cap.windowDays, m, i, paid))
    && if paid then |d.accounts| == 1 && d.accounts[0].document == 1 else d.accounts == []
  }

  lemma IsFormed(d: Ledger, cap: Capacity, ds: seq<Date>, m: nat, i: nat, paid: bool)
    requires OnDay(d, cap, ds, m, i, paid)
    ensures WellFormed(d) && d.cap == cap && d.businessDate == if m == 0 then 0 else ds[m - 1]
  {
  }

  lemma KeyTurns(s: TwoGen, c: Clock, today: Date, window: int, turns: int)
    requires s.rotation == c.rotation && turns >= 0 && KeyAfter(s, turns)
    ensures var t, step := MaybeRotate(s, today, window), ClockStep(c, today, window);
            && t.rotation == step.rotation && step.turns >= c.turns && KeyAfter(t, turns + step.turns - c.turns)
    ensures KeyAfter(s, 2) ==> KeyAfter(MaybeRotate(s, today, window), 2)
  {
    hide DayIndex;
  }

  lemma NextDay(d: Ledger, cap: Capacity, ds: seq<Date>, m: nat, i: nat, paid: bool, lsn: nat)
    requires OnDay(d, cap, ds, m, i, paid) && m < |ds| && InOrder(ds)
    ensures var a := Apply(d, lsn, DayOpened(ds[m], 0, 0, 0));
            a.st == Ok && OnDay(a.d, cap, ds, m + 1, i, paid)
  {
    hide WellFormed, DayIndex, ApplyDayOpened, ClockAfter, KeyAfter, ClockStep, MaybeRotate;
    var r := ApplyDayOpened(d, ds[m], 0, 0, 0);
    DayCourse(d, ds[m], 0, 0, 0);
    Increasing(ds, m);
    OpensNext(d, ds[m]);
    CapOf(d, r.d);
    RowsTurn(d, ds[m]);
    ClockOn(ds, m, cap.windowDays);
    KeyTurns(d.income, ClockAfter(ds[..m], cap.windowDays), ds[m], cap.windowDays, Ago(ds, cap.windowDays, m, i, paid));
    StampFormed(r.d, lsn);
  }

  lemma ClockOn(ds: seq<Date>, m: nat, window: int)
    requires m < |ds|
    ensures ClockAfter(ds[..m + 1], window) == ClockStep(ClockAfter(ds[..m], window), ds[m], window)
  {
    hide ClockStep;
    assert ds[..m + 1][..m] == ds[..m];
  }

  lemma OpensNext(d: Ledger, today: Date)
    requires WellFormed(d) && today != 0 && d.businessDate < today
    ensures ApplyDayOpened(d, today, 0, 0, 0).st == Ok
  {
    hide WellFormed, TurnDay, Compacted;
  }

  lemma Increasing(ds: seq<Date>, m: nat)
    requires InOrder(ds) && m < |ds|
    ensures ds[m] != 0 && (m > 0 ==> ds[m - 1] < ds[m])
  {
  }

  lemma StampFormed(d: Ledger, lsn: nat)
    requires WellFormed(d)
    ensures WellFormed(d.(appliedLsn := lsn))
  {
  }

  lemma RowsTurn(d: Ledger, today: Date)
    requires WellFormed(d)
    ensures var e := ApplyDayOpened(d, today, 0, 0, 0).d;
            |e.accounts| == |d.accounts| && forall k :: 0 <= k < |d.accounts| ==>
                e.accounts[k].document == d.accounts[k].document
  {
    hide WellFormed, MaybeRotate, Surviving, Reindexed;
  }

  lemma NothingOff()
    ensures Rounding.MulDiv(Rounding.HalfEven, 0, 0, Rounding.ONE_SHARE) == 0
  {
  }

  /** Where the key is in neither generation, the income is accepted. */
  lemma PaysOnce(d: Ledger)
    requires WellFormed(d) && d.cap.accounts >= 2 && KeyAfter(d.income, 2)
    requires d.accounts == [] || (|d.accounts| == 1 && d.accounts[0].document == 1)
    ensures var r := Dispatch(d, PAID);
            && r.st == Ok && |r.d.accounts| == 1 && r.d.accounts[0].document == 1
            && r.d.businessDate == d.businessDate && r.d.cap == d.cap
            && r.d.income.rotation == d.income.rotation && KeyAfter(r.d.income, 0)
  {
    hide Rounding.MulDiv, TableSize, WellFormed, InternAccount, Extends;
    NothingOff();
    var i1 := InternAccount(d, 1);
    FirstRow(d);
    assert Within(PAID.p.basis, MAX_QTY) && Within(PAID.p.rate, MAX_MONEY);
    var ins := Insert(i1.d.income, KEY, TableSize(i1.d.cap.actionsPerGen));
    assert ins.New? && KeyAfter(ins.after, 0) && ins.after.rotation == d.income.rotation;
    hide Insert;
  }

  /** The owner's row is, or will be, the first. */
  lemma FirstRow(d: Ledger)
    requires WellFormed(d) && d.cap.accounts >= 2
    requires d.accounts == [] || (|d.accounts| == 1 && d.accounts[0].document == 1)
    ensures var r := InternAccount(d, 1);
            && r.Row? && r.row == 0 && |r.d.accounts| == 1 && r.d.accounts[0].document == 1
            && r.d.income == d.income && r.d.cap == d.cap && r.d.businessDate == d.businessDate
  {
    RowsInRange(d);
  }

  /** Paid for the first time, or again once two turns have passed, the income is accepted. */
  lemma Pays(d: Ledger, cap: Capacity, ds: seq<Date>, m: nat, i: nat, paid: bool, lsn: nat)
    requires OnDay(d, cap, ds, m, i, paid) && m > 0
    requires if paid then Ago(ds, cap.windowDays, m, i, paid) >= 2 else m == i + 1
    ensures var a := Apply(d, lsn, PAID);
            a.st == Ok && (!paid ==> OnDay(a.d, cap, ds, m, i, true))
  {
    hide ClockAfter, DayIndex, WellFormed, Dispatch;
    PaysOnce(d);
  }

  lemma SpacedDay(d: Ledger, lsn: nat, today: Date, es: seq<Event>, income: map<Application, int>)
    requires WellFormed(d) && Apply(d, lsn, DayOpened(today, 0, 0, 0)).st == Ok
    ensures Spaced(d, lsn, [DayOpened(today, 0, 0, 0)] + es, map[], income)
       ==> Spaced(Apply(d, lsn, DayOpened(today, 0, 0, 0)).d, lsn + 1, es, map[], income)
  {
    hide WellFormed, Apply, DayIndex;
    var all := [DayOpened(today, 0, 0, 0)] + es;
    assert all[0] == DayOpened(today, 0, 0, 0) && all[1..] == es;
  }

  lemma SpacedPaid(d: Ledger, lsn: nat, es: seq<Event>, income: map<Application, int>)
    requires WellFormed(d) && Apply(d, lsn, PAID).st == Ok
    ensures Spaced(d, lsn, [PAID] + es, map[], income)
       ==> && (Application(1, 1) in income ==>
                 DayIndex(d.businessDate) - income[Application(1, 1)] >= d.cap.windowDays)
           && Spaced(Apply(d, lsn, PAID).d, lsn + 1, es, map[], income[Application(1, 1) := DayIndex(d.businessDate)])
  {
    hide WellFormed, Apply, DayIndex;
    var all := [PAID] + es;
    assert all[0] == PAID && all[1..] == es;
  }

  /** From day `m` on, the second payment comes too early. */
  lemma {:induction false} TooEarly(d: Ledger, lsn: nat, cap: Capacity, ds: seq<Date>, m: nat, i: nat, j: nat)
    requires InOrder(ds) && i < j < |ds| && m <= j && OnDay(d, cap, ds, m, i, m > i)
    requires ForgetsBetween(ds, cap.windowDays, i, j)
    ensures WellFormed(d)
    ensures var last := if m > i then map[Application(1, 1) := DayIndex(ds[i])] else map[];
            !Spaced(d, lsn, StreamOf(ds, m, i, j), map[], last)
    decreases j - m
  {
    hide DayIndex, ClockAfter, OnDay, Apply, InOrder, Spaced, WellFormed;
    var income := if m > i then map[Application(1, 1) := DayIndex(ds[i])] else map[];
    var rest := StreamOf(ds, m + 1, i, j);
    IsFormed(d, cap, ds, m, i, m > i);
    NextDay(d, cap, ds, m, i, m > i, lsn);
    var a := Apply(d, lsn, DayOpened(ds[m], 0, 0, 0));
    IsFormed(a.d, cap, ds, m + 1, i, m > i);
    if m == i || m == j {
      assert StreamOf(ds, m, i, j) == [DayOpened(ds[m], 0, 0, 0)] + ([PAID] + rest);
      SpacedDay(d, lsn, ds[m], [PAID] + rest, income);
      Pays(a.d, cap, ds, m + 1, i, m > i, lsn + 1);
      SpacedPaid(a.d, lsn + 1, rest, income);
      if m == i {
        var b := Apply(a.d, lsn + 1, PAID);
        IsFormed(b.d, cap, ds, m + 1, i, true);
        TooEarly(b.d, lsn + 2, cap, ds, m + 1, i, j);
        assert map[][Application(1, 1) := DayIndex(ds[i])] == map[Application(1, 1) := DayIndex(ds[i])];
      }
    } else {
      assert StreamOf(ds, m, i, j) == [DayOpened(ds[m], 0, 0, 0)] + rest;
      SpacedDay(d, lsn, ds[m], rest, income);
      TooEarly(a.d, lsn + 1, cap, ds, m + 1, i, j);
    }
  }

  /** Streams that open just these days, the first of them first. */
  predicate Opens(es: seq<Event>, ds: seq<Date>) {
    es != [] && ds != [] && es[0].DayOpened? && es[0].today == ds[0] && Opened(0, es) == ds
  }

  /** Exactly the days that do not forget keep the promise: on them every stream is spaced, and on any others some
      stream applies one income twice within the window. */
  lemma WindowKeptExactly(cap: Capacity, ds: seq<Date>)
    requires ds != [] && InOrder(ds) && cap.accounts >= 2
    ensures (forall es :: Opens(es, ds) ==> Spaced(NewLedger(cap), 1, es, map[], map[]))
       <==> !Forgets(ds, cap.windowDays)
  {
    hide DayIndex, ClockAfter, Spaced, WellFormed, Opened, ForgetsBetween, OnDay;
    if !Forgets(ds, cap.windowDays) {
      forall es | Opens(es, ds)
        ensures Spaced(NewLedger(cap), 1, es, map[], map[])
      {
        SpacedFromNothing(cap, ds, es);
      }
    } else {
      var i, j :| 0 <= i < j < |ds| && ForgetsBetween(ds, cap.windowDays, i, j);
      var es := StreamOf(ds, 0, i, j);
      StreamOpens(ds, 0, i, j, 0);
      assert ds[0..] == ds && Opens(es, ds);
      NothingYet(cap, ds, i);
      TooEarly(NewLedger(cap), 1, cap, ds, 0, i, j);
    }
  }

  lemma NothingYet(cap: Capacity, ds: seq<Date>, i: nat)
    requires cap.accounts >= 2
    ensures OnDay(NewLedger(cap), cap, ds, 0, i, false)
  {
    assert ds[..0] == [];
  }

  lemma SpacedFromNothing(cap: Capacity, ds: seq<Date>, es: seq<Event>)
    requires ds != [] && InOrder(ds) && Opens(es, ds) && !Forgets(ds, cap.windowDays)
    ensures Spaced(NewLedger(cap), 1, es, map[], map[])
  {
    hide DayIndex, ClockAfter, WellFormed, ApplyDayOpened, Forgets, Recalls;
    var d, e := NewLedger(cap), es[0];
    FirstDay(d, e.today, e.d1, e.d2, e.previous);
    DayCourse(d, e.today, e.d1, e.d2, e.previous);
    var a := Apply(d, 1, e);
    CapOf(d, Dispatch(d, e).d);
    StampRecalls(Dispatch(d, e).d, 1, a.d.actions, [e.today], map[]);
    StampRecalls(Dispatch(d, e).d, 1, a.d.income, [e.today], map[]);
    AppliedOncePerWindow(a.d, 2, es[1..], [e.today], map[], map[]);
  }
}
