/** When an event takes effect, and what it leaves, as functions of what its owner sees. */
module OwnerSteps {
  import opened Bytes
  import opened Status
  import opened Rounding
  import opened Idempotency
  import opened Ledgers
  import opened Applying
  import opened Footprints
  import Rejections
  import AppliedOnce
  import opened OwnerViews

  /** The conditions, in terms of the owner's view, the window and the price factor. */
  predicate Reaches(d: Ledger, e: Event)
    requires WellFormed(d)
  {
    match e
    case DayOpened(today, _, _, _) => today != 0 && (d.businessDate != 0 ==> d.businessDate < today)
    case TradeExecuted(x) =>
      && x.id !in d.tradeIndex && FactorOf(d, x.instrument) > 0 && SlotOf(d.window, x.date).InSlot?
      && ExecutionError(x, BalancesOf(d, x.account, x.instrument)) == Ok
    case TradeSettled(s) =>
      && HasPosition(d, s.account, s.instrument)
      && var slot := SlotOf(d.window, s.date);
      SettleBuckets(BalancesOf(d, s.account, s.instrument), FundsOf(d, s.account), s, slot).Moves?
    case CorporateActionApplied(c) =>
      && ActionError(c) == Ok && !Known(d, d.actions, c.id, c.account)
      && ActionBuckets(BalancesOf(d, c.account, c.instrument), c).Acts?
    case DividendPaid(p) => DividendStands(p) && !Known(d, d.income, p.id, p.account)
    case _ => true
  }

  /** The checks on the figures of an income event alone. */
  predicate DividendStands(p: Dividend) {
    && p.gross - p.withheld == p.net && Within(p.basis, MAX_QTY) && Within(p.rate, MAX_MONEY)
    && Within(p.gross - MulDiv(HalfEven, p.basis, p.rate, ONE_SHARE), 100)
  }

  lemma ExecutionReaches(d: Ledger, x: Execution)
    requires WellFormed(d) && !IsFatal(ApplyTradeExecuted(d, x).st)
    ensures ApplyTradeExecuted(d, x).st == Ok <==> Reaches(d, TradeExecuted(x))
  {
    hide WellFormed, InternAccount, InternInstrument, InternPosition, BalancesOf, FundsOf, FactorOf, WithTrade;
    hide ExecutionError, BucketsNonNegative, Extends;
    if |d.trades| < d.cap.trades && x.id !in d.tradeIndex {
      var i1 := InternAccount(d, x.account);
      ExtendsViews(d, i1.d, x.account, x.instrument);
      var i2 := InternInstrument(i1.d, x.instrument);
      ExtendsViews(i1.d, i2.d, x.account, x.instrument);
      ExtendsAgain(d, i1.d, i2.d);
      ExtendsTables(d, i2.d);
      InstrumentRow(i2.d, i2.row);
      ExtendsSizes(i1.d, i2.d);
      AccountRows(i1.d, i2.d, i1.row, i1.row);
      var slot := SlotOf(i2.d.window, x.date);
      if i2.d.instruments[i2.row].factor != 0 && slot.InSlot? {
        var i3 := InternPosition(i2.d, i1.row, i2.row);
        ExtendsViews(i2.d, i3.d, x.account, x.instrument);
        ExtendsSizes(i2.d, i3.d);
        AccountRows(i2.d, i3.d, i1.row, i1.row);
        InstrumentKept(i2.d, i3.d, i2.row);
        ExtendsAgain(d, i2.d, i3.d);
        ExtendsTables(d, i3.d);
        Indexed(i3.d, i1.row, i2.row, i3.row);
      }
    }
  }

  lemma SettlementReaches(d: Ledger, s: Settlement)
    requires WellFormed(d) && !IsFatal(ApplyTradeSettled(d, s).st)
    ensures ApplyTradeSettled(d, s).st == Ok <==> Reaches(d, TradeSettled(s))
  {
    hide WellFormed, InternAccount, InternInstrument, BalancesOf, FundsOf, SettledRows, SettleBuckets, HasPosition;
    hide BucketsNonNegative, Extends;
    var i1 := InternAccount(d, s.account);
    ExtendsViews(d, i1.d, s.account, s.instrument);
    AccountMakesNone(d, s.account, s.account, s.instrument);
    var i2 := InternInstrument(i1.d, s.instrument);
    ExtendsViews(i1.d, i2.d, s.account, s.instrument);
    InstrumentMakesNone(i1.d, s.instrument, s.account, s.instrument);
    ExtendsAgain(d, i1.d, i2.d);
    ExtendsTables(d, i2.d);
    ExtendsSizes(i1.d, i2.d);
    AccountRows(i1.d, i2.d, i1.row, i1.row);
    RowsInRange(i2.d);
    PositionAt(i2.d, i1.row, i2.row);
    var key := PositionKey(i1.row, i2.row);
    if key in i2.d.positionIndex {
      KeyNames(i2.d, key);
      Indexed(i2.d, i1.row, i2.row, i2.d.positionIndex[key]);
    }
  }

  /** An action's key is known under its owner's row. */
  lemma KnownAt(d: Ledger, s: TwoGen, id: U64, acct: nat)
    requires WellFormed(d) && acct < |d.accounts|
    ensures Known(d, s, id, d.accounts[acct].document) <==> Contains(s, AppliedKey(id, acct))
  {
  }

  /** Every recorded key names the row of an owner. */
  ghost predicate KeysOwned(d: Ledger, s: TwoGen) {
    forall k :: k in s.gen0 || k in s.gen1 ==> k.account in d.accountIndex.Values
  }

  lemma KnownKept(d: Ledger, e: Ledger, s: TwoGen, id: U64, doc: U64)
    requires WellFormed(d) && WellFormed(e) && Extends(d, e) && KeysOwned(d, s)
    ensures Known(e, s, id, doc) == Known(d, s, id, doc)
    ensures Marked(e, s.gen0, id, doc) == Marked(d, s.gen0, id, doc)
    ensures Marked(e, s.gen1, id, doc) == Marked(d, s.gen1, id, doc)
  {
    AppliedOnce.ExtendsSteady(d, e);
    if doc in e.accountIndex && doc !in d.accountIndex {
      NewRow(d, e, doc);
    }
  }

  lemma NewRow(d: Ledger, e: Ledger, doc: U64)
    requires WellFormed(d) && WellFormed(e) && Extends(d, e) && doc in e.accountIndex && doc !in d.accountIndex
    ensures e.accountIndex[doc] >= |d.accounts|
  {
  }

  lemma ActionReaches(d: Ledger, c: Action)
    requires WellFormed(d) && KeysOwned(d, d.actions) && !IsFatal(ApplyCorporateAction(d, c).st)
    ensures ApplyCorporateAction(d, c).st == Ok <==> Reaches(d, CorporateActionApplied(c))
    ensures ApplyCorporateAction(d, c).d.actions != d.actions
       <==> ActionError(c) == Ok && !Known(d, d.actions, c.id, c.account)
  {
    hide WellFormed, InternAccount, InternInstrument, InternPosition, BalancesOf, FundsOf, ActOn, AppliedOnce.Course;
    hide ActionBuckets, ActionError, Extends, KeysOwned, Known;
    var i1 := InternAccount(d, c.account);
    ExtendsViews(d, i1.d, c.account, c.instrument);
    var i2 := InternInstrument(i1.d, c.instrument);
    ExtendsViews(i1.d, i2.d, c.account, c.instrument);
    ExtendsAgain(d, i1.d, i2.d);
    ExtendsSizes(i1.d, i2.d);
    AccountRows(i1.d, i2.d, i1.row, i1.row);
    var i3 := InternPosition(i2.d, i1.row, i2.row);
    ExtendsViews(i2.d, i3.d, c.account, c.instrument);
    ExtendsAgain(d, i2.d, i3.d);
    ExtendsSizes(i2.d, i3.d);
    AccountRows(i2.d, i3.d, i1.row, i1.row);
    InstrumentKept(i2.d, i3.d, i2.row);
    Rejections.ExtendsCourse(d, i3.d);
    Indexed(i3.d, i1.row, i2.row, i3.row);
    KnownKept(d, i3.d, d.actions, c.id, c.account);
    KnownAt(i3.d, d.actions, c.id, i1.row);
    ActOnReaches(i3.d, c, i1.row, i3.row);
  }

  lemma ActOnReaches(d: Ledger, c: Action, acct: nat, pos: nat)
    requires WellFormed(d) && acct < |d.accounts| && pos < |d.custody| && !IsFatal(ActOn(d, c, acct, pos).st)
    ensures ActOn(d, c, acct, pos).st == Ok
       <==> && ActionError(c) == Ok && !Contains(d.actions, AppliedKey(c.id, acct))
            && ActionBuckets(d.custody[pos].b, c).Acts?
    ensures ActOn(d, c, acct, pos).d.actions != d.actions
       <==> ActionError(c) == Ok && !Contains(d.actions, AppliedKey(c.id, acct))
  {
    hide WellFormed, ActedRows, ActionBuckets, ActionError, BucketsNonNegative, AppliedOnce.Course;
    var key, slots := AppliedKey(c.id, acct), TableSize(d.cap.actionsPerGen);
    InsertExactly(d.actions, key, slots);
    hide Insert;
    var ins := Insert(d.actions, key, slots);
    if ActionError(c) == Ok && ins.New? {
      var e := WithActions(d, key, ins.after);
      var acts := ActionBuckets(e.custody[pos].b, c);
      if acts.Acts? {
        AppliedOnce.ActedCourse(e, c, acct, pos, acts.b, acts.moved, acts.cash);
        CourseActions(e, ActedRows(e, c, acct, pos, acts.b, acts.moved, acts.cash));
      }
    }
  }

  lemma CourseActions(d: Ledger, e: Ledger)
    requires AppliedOnce.Course(d, e)
    ensures e.actions == d.actions && e.income == d.income && e.businessDate == d.businessDate
  {
  }

  lemma InsertExactly(s: TwoGen, k: AppliedKey, slots: nat)
    ensures Insert(s, k, slots).Duplicate? <==> Contains(s, k)
    ensures Insert(s, k, slots).New? ==> Insert(s, k, slots).after != s
  {
    if Insert(s, k, slots).New? {
      Rejections.InsertGrows(s, k, slots);
    }
  }

  lemma DividendReaches(d: Ledger, p: Dividend)
    requires WellFormed(d) && KeysOwned(d, d.income) && !IsFatal(ApplyDividendPaid(d, p).st)
    ensures ApplyDividendPaid(d, p).st == Ok <==> Reaches(d, DividendPaid(p))
  {
    hide WellFormed, InternAccount, MulDiv, Extends, KeysOwned, Known;
    var i1 := InternAccount(d, p.account);
    AppliedOnce.ExtendsFixed(d, i1.d);
    KnownKept(d, i1.d, d.income, p.id, p.account);
    KnownAt(i1.d, d.income, p.id, i1.row);
    InsertExactly(d.income, AppliedKey(p.id, i1.row), TableSize(i1.d.cap.actionsPerGen));
    hide Insert;
  }

  // ---------------------------------------------------------------- sums over all rows

  lemma {:induction false} CustodySumUpdate(rows: seq<Position>, i: nat, b: Balances)
    requires i < |rows|
    ensures CustodySum(rows[i := rows[i].(b := b)]) == CustodySum(rows) - BalancesSum(rows[i].b) + BalancesSum(b)
    decreases |rows|
  {
    hide BalancesSum;
    var n := |rows| - 1;
    var init := rows[..n];
    if i < n {
      CustodySumUpdate(init, i, b);
      assert rows[i := rows[i].(b := b)][..n] == init[i := init[i].(b := b)];
    } else {
      assert rows[i := rows[i].(b := b)][..n] == init;
    }
  }

  lemma {:induction false} CashSumUpdate(rows: seq<Account>, i: nat, m: Funds)
    requires i < |rows|
    ensures CashSum(rows[i := rows[i].(m := m)]) == CashSum(rows) - AllMoney(rows[i].m) + AllMoney(m)
    decreases |rows|
  {
    hide AllMoney;
    var n := |rows| - 1;
    var init := rows[..n];
    if i < n {
      CashSumUpdate(init, i, m);
      assert rows[i := rows[i].(m := m)][..n] == init[i := init[i].(m := m)];
    } else {
      assert rows[i := rows[i].(m := m)][..n] == init;
    }
  }

  lemma {:induction false} CustodySumZeros(rows: seq<Position>, n: nat)
    requires n <= |rows| && forall i :: n <= i < |rows| ==> rows[i].b == NO_BALANCES
    ensures CustodySum(rows) == CustodySum(rows[..n])
    decreases |rows|
  {
    if n < |rows| {
      CustodySumZeros(rows[..|rows| - 1], n);
      assert rows[..|rows| - 1][..n] == rows[..n];
    } else {
      assert rows[..n] == rows;
    }
  }

  lemma {:induction false} CashSumZeros(rows: seq<Account>, n: nat)
    requires n <= |rows| && forall i :: n <= i < |rows| ==> rows[i].m == NO_FUNDS
    ensures CashSum(rows) == CashSum(rows[..n])
    decreases |rows|
  {
    if n < |rows| {
      CashSumZeros(rows[..|rows| - 1], n);
      assert rows[..|rows| - 1][..n] == rows[..n];
    } else {
      assert rows[..n] == rows;
    }
  }

  datatype Sums = Sums(custody: int, cash: int)

  function SumsOf(d: Ledger): Sums {
    Sums(CustodySum(d.custody), CashSum(d.accounts))
  }

  lemma ExtendsSums(d: Ledger, e: Ledger)
    requires Extends(d, e)
    ensures SumsOf(e) == SumsOf(d)
  {
    hide CustodySum, CashSum;
    CustodySumZeros(e.custody, |d.custody|);
    CashSumZeros(e.accounts, |d.accounts|);
    assert e.custody[..|d.custody|] == d.custody && e.accounts[..|d.accounts|] == d.accounts;
  }

  lemma {:induction false} RotatedCustodySum(rows: seq<Position>, from: Window, to: Window)
    ensures CustodySum(RotatedCustody(rows, from, to)) == CustodySum(rows)
    decreases |rows|
  {
    hide RotateBalances, BalancesSum;
    if rows != [] {
      var init := rows[..|rows| - 1];
      RotatedCustodySum(init, from, to);
      assert RotatedCustody(rows, from, to)[..|rows| - 1] == RotatedCustody(init, from, to);
      RotationSum(rows[|rows| - 1].b, from, to);
    }
  }

  lemma RotationSum(b: Balances, from: Window, to: Window)
    ensures BalancesSum(RotateBalances(b, from, to)) == BalancesSum(b)
  {
    hide Turn;
    TurnedSum(b.pendingBuy, from, to);
    TurnedSum(b.pendingSell, from, to);
  }

  lemma TurnedSum(t: Three, from: Window, to: Window)
    ensures Sum(Turn(t, from, to).kept) + Turn(t, from, to).out == Sum(t)
  {
  }

  lemma {:induction false} RotatedCashSum(rows: seq<Account>, from: Window, to: Window)
    ensures CashSum(RotatedAccounts(rows, from, to)) == CashSum(rows)
    decreases |rows|
  {
    hide Turn;
    if rows != [] {
      var init := rows[..|rows| - 1];
      RotatedCashSum(init, from, to);
      assert RotatedAccounts(rows, from, to)[..|rows| - 1] == RotatedAccounts(init, from, to);
      TurnedSum(rows[|rows| - 1].m.pending, from, to);
    }
  }

  // ---------------------------------------------------------------- what an event adds to the sums

  /** Whose rows an event changes; no one's for one that is not about one owner's position. */
  datatype Target = Target(doc: U64, inst: U32)

  function TargetOf(e: Event): Target {
    match e
    case TradeExecuted(x) => Target(x.account, x.instrument)
    case TradeAllocated(a) => Target(a.to, 0)
    case BatchNetted(account, _, _, _) => Target(account, 0)
    case TradeSettled(s) => Target(s.account, s.instrument)
    case CorporateActionApplied(c) => Target(c.account, c.instrument)
    case DividendPaid(p) => Target(p.account, p.instrument)
    case _ => Target(0, 0)
  }

  /** The part of the sums that is the target's. */
  function Share(d: Ledger, t: Target): Sums
    requires WellFormed(d)
  {
    Sums(BalancesSum(BalancesOf(d, t.doc, t.inst)), AllMoney(FundsOf(d, t.doc)))
  }

  /** From `d` to `e` the sums move by what the target's share moves. */
  ghost predicate SumsFollow(d: Ledger, e: Ledger, t: Target)
    requires WellFormed(d) && WellFormed(e)
  {
    && SumsOf(e).custody - SumsOf(d).custody == Share(e, t).custody - Share(d, t).custody
    && SumsOf(e).cash - SumsOf(d).cash == Share(e, t).cash - Share(d, t).cash
  }

  lemma ExtendsFollow(d: Ledger, e: Ledger, t: Target)
    requires WellFormed(d) && WellFormed(e) && Extends(d, e)
    ensures SumsFollow(d, e, t)
  {
    hide SumsOf, BalancesOf, FundsOf, WellFormed, Extends;
    ExtendsSums(d, e);
    ExtendsViews(d, e, t.doc, t.inst);
  }

  lemma FollowAgain(d: Ledger, e: Ledger, f: Ledger, t: Target)
    requires WellFormed(d) && WellFormed(e) && WellFormed(f) && SumsFollow(d, e, t) && SumsFollow(e, f, t)
    ensures SumsFollow(d, f, t)
  {
    hide WellFormed, SumsOf, Share;
  }

  lemma SameRowsFollow(d: Ledger, e: Ledger, t: Target)
    requires WellFormed(d) && WellFormed(e) && e.custody == d.custody && e.accounts == d.accounts
    requires e.instruments == d.instruments && e.instrumentIndex == d.instrumentIndex
    requires e.accountIndex == d.accountIndex && e.positionIndex == d.positionIndex
    ensures SumsFollow(d, e, t)
  {
    hide BalancesOf, FundsOf, WellFormed;
    SameBooks(d, e, t.doc, t.inst);
  }

  /** Writing the target's own rows. */
  lemma LegFollows(d: Ledger, acct: nat, i: nat, pos: nat, b: Balances, m: Funds)
    requires WellFormed(d) && acct < |d.accounts| && i < |d.instruments| && pos < |d.custody|
    requires KeyOf(d.custody[pos]) == PositionKey(acct, i)
    ensures |SetBalances(d, pos, b).accounts| == |d.accounts|
    ensures SumsFollow(d, SetFunds(SetBalances(d, pos, b), acct, m),
              Target(d.accounts[acct].document, d.instruments[i].id))
  {
    var e := SetFunds(SetBalances(d, pos, b), acct, m);
    CustodySumUpdate(d.custody, pos, b);
    CashSumUpdate(d.accounts, acct, m);
    Indexed(d, acct, i, pos);
    LegRows(d, acct, pos, b, m);
    hide BalancesOf, FundsOf, WellFormed, SetBalances, SetFunds, CustodySum, CashSum, AllMoney, BalancesSum;
    BothSetView(d, acct, i, pos, b, m, d.accounts[acct].document, d.instruments[i].id);
  }

  lemma LegRows(d: Ledger, acct: nat, pos: nat, b: Balances, m: Funds)
    requires WellFormed(d) && acct < |d.accounts| && pos < |d.custody|
    ensures |SetBalances(d, pos, b).accounts| == |d.accounts|
    ensures var e := SetFunds(SetBalances(d, pos, b), acct, m);
            && e.custody == d.custody[pos := d.custody[pos].(b := b)]
            && e.accounts == d.accounts[acct := d.accounts[acct].(m := m)]
  {
    hide WellFormed;
  }

  lemma ExecutedFollows(d: Ledger, x: Execution)
    requires WellFormed(d)
    ensures SumsFollow(d, ApplyTradeExecuted(d, x).d, Target(x.account, x.instrument))
  {
    hide WellFormed, InternAccount, InternInstrument, InternPosition, WithTrade, ExecutionError, BucketsNonNegative;
    hide SumsFollow, Extends;
    var t := Target(x.account, x.instrument);
    ItselfFollows(d, t);
    if |d.trades| < d.cap.trades && x.id !in d.tradeIndex {
      var i1 := InternAccount(d, x.account);
      if i1.Row? {
        ExtendsFollow(d, i1.d, t);
        var i2 := InternInstrument(i1.d, x.instrument);
        if i2.Row? {
          ExtendsAgain(d, i1.d, i2.d);
          ExtendsFollow(d, i2.d, t);
          ExtendsSizes(i1.d, i2.d);
          AccountRows(i1.d, i2.d, i1.row, i1.row);
          var slot := SlotOf(i2.d.window, x.date);
          if i2.d.instruments[i2.row].factor != 0 && slot.InSlot? {
            var i3 := InternPosition(i2.d, i1.row, i2.row);
            if i3.Row? {
              ExtendsAgain(d, i2.d, i3.d);
              ExtendsFollow(d, i3.d, t);
              ExtendsSizes(i2.d, i3.d);
              ExtendsTables(d, i3.d);
              AccountRows(i2.d, i3.d, i1.row, i1.row);
              InstrumentKept(i2.d, i3.d, i2.row);
              if ExecutionError(x, i3.d.custody[i3.row].b) == Ok {
                WithTradeFollows(i3.d, x, i1.row, i2.row, i3.row, slot.k);
                FollowAgain(d, i3.d, WithTrade(i3.d, x, i1.row, i2.row, i3.row, slot.k), t);
              }
            }
          }
        }
      }
    }
  }

  lemma ItselfFollows(d: Ledger, t: Target)
    requires WellFormed(d)
    ensures SumsFollow(d, d, t)
  {
    hide WellFormed, SumsOf, Share;
  }

  lemma WithTradeFollows(d: Ledger, x: Execution, acct: nat, i: nat, pos: nat, k: nat)
    requires WellFormed(d) && acct < |d.accounts| && i < |d.instruments| && pos < |d.custody| && k < 3
    requires d.instruments[i].factor > 0 && x.id !in d.tradeIndex && |d.trades| < d.cap.trades
    requires KeyOf(d.custody[pos]) == PositionKey(acct, i)
    ensures SumsFollow(d, WithTrade(d, x, acct, i, pos, k), Target(d.accounts[acct].document, d.instruments[i].id))
  {
    hide WellFormed, SumsFollow, SetBalances, SetFunds, Amount, ExecuteBalances;
    var m := d.accounts[acct].m;
    var m' := m.(pending := Plus(m.pending, k, Amount(x, d.instruments[i].factor)));
    var b := ExecuteBalances(d.custody[pos].b, x.side == BUY, k, x.qty, x.shortFlag);
    LegFollows(d, acct, i, pos, b, m');
    var e := SetFunds(SetBalances(d, pos, b), acct, m');
    SameRowsFollow(e, WithTrade(d, x, acct, i, pos, k), Target(d.accounts[acct].document, d.instruments[i].id));
    FollowAgain(d, e, WithTrade(d, x, acct, i, pos, k), Target(d.accounts[acct].document, d.instruments[i].id));
  }

  lemma SettledFollows(d: Ledger, s: Settlement)
    requires WellFormed(d)
    ensures SumsFollow(d, ApplyTradeSettled(d, s).d, Target(s.account, s.instrument))
  {
    hide WellFormed, InternAccount, InternInstrument, SettleBuckets, SettledRows, BucketsNonNegative;
    hide SumsFollow, Extends;
    var t := Target(s.account, s.instrument);
    ItselfFollows(d, t);
    var i1 := InternAccount(d, s.account);
    if i1.Row? {
      ExtendsFollow(d, i1.d, t);
      var i2 := InternInstrument(i1.d, s.instrument);
      if i2.Row? {
        ExtendsAgain(d, i1.d, i2.d);
        ExtendsFollow(d, i2.d, t);
        ExtendsSizes(i1.d, i2.d);
        AccountRows(i1.d, i2.d, i1.row, i1.row);
        RowsInRange(i2.d);
        var key := PositionKey(i1.row, i2.row);
        if key in i2.d.positionIndex {
          KeyNames(i2.d, key);
          var pos := i2.d.positionIndex[key];
          var r := SettleBuckets(i2.d.custody[pos].b, i2.d.accounts[i1.row].m, s, SlotOf(i2.d.window, s.date));
          if r.Moves? {
            SettledRowsFollow(i2.d, s, i1.row, i2.row, pos, r.b, r.m);
            FollowAgain(d, i2.d, SettledRows(i2.d, s, i1.row, i2.row, pos, r.b, r.m), t);
          }
        }
      }
    }
  }

  lemma SettledRowsFollow(d: Ledger, s: Settlement, acct: nat, i: nat, pos: nat, b: Balances, m: Funds)
    requires WellFormed(d) && acct < |d.accounts| && i < |d.instruments| && pos < |d.custody|
    requires KeyOf(d.custody[pos]) == PositionKey(acct, i)
    ensures SumsFollow(d, SettledRows(d, s, acct, i, pos, b, m), Target(d.accounts[acct].document, d.instruments[i].id))
  {
    hide WellFormed, SumsFollow, SetBalances, SetFunds, Noted;
    var t := Target(d.accounts[acct].document, d.instruments[i].id);
    LegFollows(d, acct, i, pos, b, m);
    var e := SetFunds(SetBalances(d, pos, b), acct, m);
    SameRowsFollow(e, SettledRows(d, s, acct, i, pos, b, m), t);
    FollowAgain(d, e, SettledRows(d, s, acct, i, pos, b, m), t);
  }

  lemma ActionFollows(d: Ledger, c: Action)
    requires WellFormed(d)
    ensures SumsFollow(d, ApplyCorporateAction(d, c).d, Target(c.account, c.instrument))
  {
    hide WellFormed, InternAccount, InternInstrument, InternPosition, ActOn, SumsFollow, Extends;
    var t := Target(c.account, c.instrument);
    ItselfFollows(d, t);
    var i1 := InternAccount(d, c.account);
    if i1.Row? {
      ExtendsFollow(d, i1.d, t);
      var i2 := InternInstrument(i1.d, c.instrument);
      if i2.Row? {
        ExtendsAgain(d, i1.d, i2.d);
        ExtendsFollow(d, i2.d, t);
        ExtendsSizes(i1.d, i2.d);
        AccountRows(i1.d, i2.d, i1.row, i1.row);
        var i3 := InternPosition(i2.d, i1.row, i2.row);
        if i3.Row? {
          ExtendsAgain(d, i2.d, i3.d);
          ExtendsFollow(d, i3.d, t);
          ExtendsSizes(i2.d, i3.d);
          AccountRows(i2.d, i3.d, i1.row, i1.row);
          InstrumentKept(i2.d, i3.d, i2.row);
          ActOnFollows(i3.d, c, i1.row, i2.row, i3.row);
          FollowAgain(d, i3.d, ActOn(i3.d, c, i1.row, i3.row).d, t);
        }
      }
    }
  }

  lemma ActOnFollows(d: Ledger, c: Action, acct: nat, i: nat, pos: nat)
    requires WellFormed(d) && acct < |d.accounts| && i < |d.instruments| && pos < |d.custody|
    requires KeyOf(d.custody[pos]) == PositionKey(acct, i)
    ensures SumsFollow(d, ActOn(d, c, acct, pos).d, Target(d.accounts[acct].document, d.instruments[i].id))
  {
    hide WellFormed, SumsFollow, ActedRows, ActionBuckets, ActionError, Insert, BucketsNonNegative;
    var t := Target(d.accounts[acct].document, d.instruments[i].id);
    ItselfFollows(d, t);
    var key := AppliedKey(c.id, acct);
    var ins := Insert(d.actions, key, TableSize(d.cap.actionsPerGen));
    if ActionError(c) == Ok && ins.New? {
      var e := WithActions(d, key, ins.after);
      SameRowsFollow(d, e, t);
      var acts := ActionBuckets(e.custody[pos].b, c);
      if acts.Acts? {
        ActedRowsFollow(e, c, acct, i, pos, acts.b, acts.moved, acts.cash);
        FollowAgain(d, e, ActedRows(e, c, acct, pos, acts.b, acts.moved, acts.cash), t);
      }
    }
  }

  lemma ActedRowsFollow(d: Ledger, c: Action, acct: nat, i: nat, pos: nat, b: Balances, moved: int, cash: int)
    requires WellFormed(d) && acct < |d.accounts| && i < |d.instruments| && pos < |d.custody|
    requires KeyOf(d.custody[pos]) == PositionKey(acct, i)
    ensures SumsFollow(d, ActedRows(d, c, acct, pos, b, moved, cash),
              Target(d.accounts[acct].document, d.instruments[i].id))
  {
    hide WellFormed, SumsFollow, SetBalances, SetFunds, Noted;
    var t := Target(d.accounts[acct].document, d.instruments[i].id);
    var m := d.accounts[acct].m;
    var m' := m.(cash := m.cash + cash, income := m.income - c.withheld);
    LegFollows(d, acct, i, pos, b, m');
    var e := SetFunds(SetBalances(d, pos, b), acct, m');
    SameRowsFollow(e, ActedRows(d, c, acct, pos, b, moved, cash), t);
    FollowAgain(d, e, ActedRows(d, c, acct, pos, b, moved, cash), t);
  }

  lemma DividendFollows(d: Ledger, p: Dividend)
    requires WellFormed(d)
    ensures SumsFollow(d, ApplyDividendPaid(d, p).d, Target(p.account, p.instrument))
  {
    hide WellFormed, InternAccount, SumsFollow, Extends, PushException, MulDiv, Insert, SetFunds;
    var t := Target(p.account, p.instrument);
    ItselfFollows(d, t);
    var i1 := InternAccount(d, p.account);
    if i1.Row? {
      ExtendsFollow(d, i1.d, t);
      if p.gross - p.withheld == p.net && Within(p.basis, MAX_QTY) && Within(p.rate, MAX_MONEY) {
        var gap := p.gross - MulDiv(HalfEven, p.basis, p.rate, ONE_SHARE);
        PushedFollows(i1.d, ExceptionRecord(p.account, gap, p.instrument, p.exDate, AmountMismatch), t);
        var why := ExceptionRecord(p.account, gap, p.instrument, p.exDate, AmountMismatch);
        FollowAgain(d, i1.d, PushException(i1.d, why, false), t);
        var key, slots := AppliedKey(p.id, i1.row), TableSize(i1.d.cap.actionsPerGen);
        if Insert(i1.d.income, key, slots).New? {
          var e := WithIncome(i1.d, key, Insert(i1.d.income, key, slots).after);
          SameRowsFollow(i1.d, e, t);
          FundsFollow(e, i1.row, DividendFunds(e.accounts[i1.row].m, p), p.instrument);
          FollowAgain(i1.d, e, SetFunds(e, i1.row, DividendFunds(e.accounts[i1.row].m, p)), t);
          FollowAgain(d, i1.d, SetFunds(e, i1.row, DividendFunds(e.accounts[i1.row].m, p)), t);
        }
      }
    }
  }

  lemma PushedFollows(d: Ledger, r: ExceptionRecord, t: Target)
    requires WellFormed(d)
    ensures SumsFollow(d, PushException(d, r, false), t)
  {
    hide WellFormed, SumsFollow;
    SameRowsFollow(d, PushException(d, r, false), t);
  }

  lemma FundsFollow(d: Ledger, acct: nat, m: Funds, inst: U32)
    requires WellFormed(d) && acct < |d.accounts|
    ensures SumsFollow(d, SetFunds(d, acct, m), Target(d.accounts[acct].document, inst))
  {
    CashSumUpdate(d.accounts, acct, m);
    AccountView(d, acct);
    hide BalancesOf, FundsOf, WellFormed, CustodySum, CashSum, AllMoney, BalancesSum;
    SetFundsView(d, acct, m, d.accounts[acct].document, inst);
  }
}
