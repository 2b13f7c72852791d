/** The set of actions already applied, kept in two generations that take turns. */
module Idempotency {
  import opened Bytes
  import opened Calendar

  datatype AppliedKey = AppliedKey(action: U64, account: nat)

  /** `current` says which generation is written; both are consulted. */
  datatype TwoGen = TwoGen(gen0: set<AppliedKey>, gen1: set<AppliedKey>, current: bool, rotation: Date)

  datatype Inserted = New(after: TwoGen) | Duplicate | Full

  function Empty(): TwoGen {
    TwoGen({}, {}, false, 0)
  }

  /** Slots of a table meant for `n` elements: a power of two from 16 up, at most 70 per cent of it used. */
  function TableSize(n: nat): (cap: nat)
    ensures 16 <= cap && 7 * cap >= 10 * n
  {
    Doubled(16, (10 * n + 6) / 7)
  }

  function Doubled(cap: nat, least: nat): (r: nat)
    requires cap > 0
    ensures r >= cap && r >= least
    decreases if cap < least then least - cap else 0
  {
    if cap < least then Doubled(2 * cap, least) else cap
  }

  function Contains(s: TwoGen, k: AppliedKey): bool {
    k in s.gen0 || k in s.gen1
  }

  function Insert(s: TwoGen, k: AppliedKey, slots: nat): Inserted {
    if Contains(s, k) then Duplicate
    else if !s.current then
      if 10 * |s.gen0| >= 7 * slots then Full else New(s.(gen0 := s.gen0 + {k}))
    else
      if 10 * |s.gen1| >= 7 * slots then Full else New(s.(gen1 := s.gen1 + {k}))
  }

  /** On the first day nothing turns; after that, once the window has passed, the older generation is emptied
      and written from then on. */
  function MaybeRotate(s: TwoGen, today: Date, window: int): TwoGen {
    if s.rotation == 0 then s.(rotation := today)
    else if DayIndex(today) - DayIndex(s.rotation) < window then s
    else if s.current then TwoGen({}, s.gen1, false, today)
    else TwoGen(s.gen0, {}, true, today)
  }
}
