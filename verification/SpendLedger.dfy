/** What assistant calls cost, the ledger of them, and the budget gate that reads it
    (app/ai_pricing.py, app/assistant.py, app/routers/dashboard.py). */
module SpendLedger {
  import opened Basics
  import opened Models
  import opened AssetChildren

  // ---- the price of one call ----

  // Token counts as reported; a missing count is a field that was not reported.
  datatype Tokens = Tokens(input: Option<nat>, output: Option<nat>, cacheRead: Option<nat>, cacheWrite: Option<nat>)

  // Dollars per million tokens, (input, output).
  const RATES: map<string, (nat, nat)> :=
    map["claude-opus-5" := (5, 25), "claude-sonnet-5" := (3, 15), "claude-haiku-4-5" := (1, 5)]

  function Count(n: Option<nat>): nat {
    if n.Some? then n.value else 0
  }

  /** The exact cost in twentieths of a millionth of a dollar: cache reads cost a tenth of the input
      rate, cache writes five quarters of it. */
  function Twentieths(rate: (nat, nat), t: Tokens): nat {
    20 * (Count(t.input) * rate.0) + 20 * (Count(t.output) * rate.1)
    + 2 * (Count(t.cacheRead) * rate.0) + 25 * (Count(t.cacheWrite) * rate.0)
  }

  /** `r` is `n / 20` rounded to the nearest integer, a tie to the even one. */
  predicate RoundsTo(n: nat, r: nat) {
    -10 <= 20 * r - n <= 10 && (20 * r - n == 10 || 20 * r - n == -10 ==> r % 2 == 0)
  }

  function HalfEven(n: nat): (r: nat)
    ensures RoundsTo(n, r)
  {
    if n % 20 > 10 || (n % 20 == 10 && n / 20 % 2 == 1) then n / 20 + 1 else n / 20
  }

  lemma RoundingIsUnique(n: nat, r: nat, s: nat)
    requires RoundsTo(n, r) && RoundsTo(n, s)
    ensures r == s
  {
    assert r < s ==> s == r + 1 && 20 * s - n == 10 && 20 * r - n == -10;
    assert s < r ==> r == s + 1 && 20 * r - n == 10 && 20 * s - n == -10;
  }

  /** `cost_usd`, in millionths of a dollar: a model outside the table is unknown, not free. */
  function CostUsd(model: Text, t: Tokens): (cost: Option<int>)
    ensures cost.Some? <==> model.Some? && model.value in RATES
    ensures cost.Some? ==> cost.value >= 0 && RoundsTo(Twentieths(RATES[model.value], t), cost.value)
  {
    if !Truthy(model) || model.value !in RATES then None
    else Some(HalfEven(Twentieths(RATES[model.value], t)))
  }

  // A product of counts is the same product of reals.
  lemma RealProduct(a: nat, b: nat)
    ensures (a * b) as real == (a as real) * (b as real)
  {
    if a > 0 {
      RealProduct(a - 1, b);
      assert a * b == (a - 1) * b + b;
    }
  }

  // The bill in millionths of a dollar, at so many dollars per million tokens: a cache read costs a
  // tenth and a cache write five quarters of an input token.
  function Bill(input: real, output: real, t: Tokens): real {
    (if t.input.Some? then t.input.value else 0) as real * input
    + (if t.output.Some? then t.output.value else 0) as real * output
    + (if t.cacheRead.Some? then t.cacheRead.value else 0) as real * input * 0.1
    + (if t.cacheWrite.Some? then t.cacheWrite.value else 0) as real * input * 1.25
  }

  lemma TwentiethsAreTheBill(rate: (nat, nat), t: Tokens)
    ensures Twentieths(rate, t) as real / 20.0 == Bill(rate.0 as real, rate.1 as real, t)
  {
    hide *;
    var i, o := Count(t.input) * rate.0, Count(t.output) * rate.1;
    var r, w := Count(t.cacheRead) * rate.0, Count(t.cacheWrite) * rate.0;
    TwentiethParts(rate, t, i, o, r, w);
    BillParts(rate, t, i, o, r, w);
    PartsAgree(i, o, r, w);
  }

  lemma TwentiethParts(rate: (nat, nat), t: Tokens, i: nat, o: nat, r: nat, w: nat)
    requires i == Count(t.input) * rate.0 && o == Count(t.output) * rate.1
    requires r == Count(t.cacheRead) * rate.0 && w == Count(t.cacheWrite) * rate.0
    ensures Twentieths(rate, t) == 20 * i + 20 * o + 2 * r + 25 * w
  {
    hide Count;
  }

  lemma BillParts(rate: (nat, nat), t: Tokens, i: nat, o: nat, r: nat, w: nat)
    requires i == Count(t.input) * rate.0 && o == Count(t.output) * rate.1
    requires r == Count(t.cacheRead) * rate.0 && w == Count(t.cacheWrite) * rate.0
    ensures Bill(rate.0 as real, rate.1 as real, t) == i as real + o as real + r as real * 0.1 + w as real * 1.25
  {
    RealProduct(Count(t.input), rate.0);
    RealProduct(Count(t.output), rate.1);
    RealProduct(Count(t.cacheRead), rate.0);
    RealProduct(Count(t.cacheWrite), rate.0);
  }

  lemma PartsAgree(i: nat, o: nat, r: nat, w: nat)
    ensures (20 * i + 20 * o + 2 * r + 25 * w) as real / 20.0
         == i as real + o as real + r as real * 0.1 + w as real * 1.25
  {
  }

  /** The cost is the bill, off by at most half a millionth; where it is off by exactly half it is even. */
  lemma CostIsTheBill(model: Text, t: Tokens)
    requires CostUsd(model, t).Some?
    ensures var cost, rate := CostUsd(model, t).value, RATES[model.value];
      var off := cost as real - Bill(rate.0 as real, rate.1 as real, t);
      -0.5 <= off <= 0.5 && (off == 0.5 || off == -0.5 ==> cost % 2 == 0)
  {
    hide Twentieths, Bill, RATES;
    TwentiethsAreTheBill(RATES[model.value], t);
  }

  function OnlyInput(n: nat): Tokens { Tokens(Some(n), None, None, None) }
  function OnlyOutput(n: nat): Tokens { Tokens(None, Some(n), None, None) }

  /** The list prices of a million tokens, in millionths of a dollar. */
  lemma ListPrices()
    ensures CostUsd(Some("claude-opus-5"), OnlyInput(1000000)) == Some(5000000)
    ensures CostUsd(Some("claude-opus-5"), OnlyOutput(1000000)) == Some(25000000)
    ensures CostUsd(Some("claude-sonnet-5"), OnlyInput(1000000)) == Some(3000000)
    ensures CostUsd(Some("claude-sonnet-5"), OnlyOutput(1000000)) == Some(15000000)
    ensures CostUsd(Some("claude-haiku-4-5"), OnlyInput(1000000)) == Some(1000000)
    ensures CostUsd(Some("claude-haiku-4-5"), OnlyOutput(1000000)) == Some(5000000)
    ensures RATES.Keys == {"claude-opus-5", "claude-sonnet-5", "claude-haiku-4-5"}
  {
  }

  /** A call that used no fewer tokens of any kind costs no less. */
  lemma CostIsMonotone(model: Text, t: Tokens, u: Tokens)
    requires CostUsd(model, t).Some?
    requires Count(t.input) <= Count(u.input) && Count(t.output) <= Count(u.output)
    requires Count(t.cacheRead) <= Count(u.cacheRead) && Count(t.cacheWrite) <= Count(u.cacheWrite)
    ensures CostUsd(model, u).Some? && CostUsd(model, t).value <= CostUsd(model, u).value
  {
    hide Twentieths, RATES;
    TwentiethsMonotone(RATES[model.value], t, u);
    HalfEvenMonotone(Twentieths(RATES[model.value], t), Twentieths(RATES[model.value], u));
  }

  lemma TwentiethsMonotone(rate: (nat, nat), t: Tokens, u: Tokens)
    requires Count(t.input) <= Count(u.input) && Count(t.output) <= Count(u.output)
    requires Count(t.cacheRead) <= Count(u.cacheRead) && Count(t.cacheWrite) <= Count(u.cacheWrite)
    ensures Twentieths(rate, t) <= Twentieths(rate, u)
  {
    TimesMonotone(Count(t.input), Count(u.input), rate.0);
    TimesMonotone(Count(t.output), Count(u.output), rate.1);
    TimesMonotone(Count(t.cacheRead), Count(u.cacheRead), rate.0);
    TimesMonotone(Count(t.cacheWrite), Count(u.cacheWrite), rate.0);
  }

  lemma TimesMonotone(a: nat, b: nat, c: nat)
    requires a <= b
    ensures a * c <= b * c
  {
  }

  lemma HalfEvenMonotone(m: nat, n: nat)
    requires m <= n
    ensures HalfEven(m) <= HalfEven(n)
  {
    assert HalfEven(n) < HalfEven(m) ==> m == n;
  }

  // ---- the ledger over a period ----

  /** `_period_spend`: the sum of the known costs from `start` on ... */
  function PeriodSum(rows: seq<Usage>, start: Time): int {
    if rows == [] then 0
    else
      var r := rows[|rows| - 1];
      PeriodSum(rows[..|rows| - 1], start) + (if r.at >= start && r.cost.Some? then r.cost.value else 0)
  }

  predicate Unpriced(r: Usage) {
    r.cost.None? && r.provider == Anthropic
  }

  /** ... and whether a direct call in it could not be priced. */
  predicate PeriodPartial(rows: seq<Usage>, start: Time) {
    exists i :: 0 <= i < |rows| && rows[i].at >= start && Unpriced(rows[i])
  }

  // The two limits, in millionths of a dollar, and the start of the calendar month of a time.
  datatype Budget = Budget(day: int, month: int, monthStart: Time -> Time)

  function DayStart(t: Time): Time {
    t - t % DAY
  }

  datatype Reason = TurnedOff | DayUnpriced | DaySpent | MonthUnpriced | MonthSpent

  predicate Within(rows: seq<Usage>, start: Time, limit: int) {
    !PeriodPartial(rows, start) && PeriodSum(rows, start) < limit
  }

  /** `budget_block_reason`: spending is allowed exactly when the switch is on and both periods are
      fully priced and below their limits. */
  function BudgetBlockReason(enabled: bool, rows: seq<Usage>, now: Time, b: Budget): (r: Option<Reason>)
    ensures r.None? <==> enabled && Within(rows, DayStart(now), b.day) && Within(rows, b.monthStart(now), b.month)
  {
    if !enabled then Some(TurnedOff)
    else if PeriodPartial(rows, DayStart(now)) then Some(DayUnpriced)
    else if PeriodSum(rows, DayStart(now)) >= b.day then Some(DaySpent)
    else if PeriodPartial(rows, b.monthStart(now)) then Some(MonthUnpriced)
    else if PeriodSum(rows, b.monthStart(now)) >= b.month then Some(MonthSpent)
    else None
  }

  // ---- runs: every row was admitted by the gate ----

  /** `start` cuts time into periods. */
  ghost predicate Periods(start: Time -> Time) {
    && (forall t :: start(t) <= t)
    && (forall t, u :: start(t) <= u <= t ==> start(u) == start(t))
  }

  lemma PeriodOrder(start: Time -> Time, t: Time, u: Time)
    requires Periods(start) && t <= u
    ensures start(t) <= start(u)
  {
    assert start(u) <= t <= u ==> start(t) == start(u);
  }

  lemma DaysArePeriods()
    ensures Periods(DayStart)
  {
  }

  // What the calls of one period cost.
  function SpentIn(rows: seq<Usage>, start: Time -> Time, period: Time): int {
    if rows == [] then 0
    else
      var r := rows[|rows| - 1];
      SpentIn(rows[..|rows| - 1], start, period)
      + (if start(r.at) == period && r.cost.Some? then r.cost.value else 0)
  }

  // Every direct call of the period that holds `now` has a known cost.
  predicate PeriodPriced(rows: seq<Usage>, start: Time -> Time, now: Time) {
    forall i :: 0 <= i < |rows| && start(rows[i].at) == start(now) && rows[i].provider == Anthropic ==>
      rows[i].cost.Some?
  }

  // They are all priced, and cost less than the limit.
  predicate PeriodOpen(rows: seq<Usage>, start: Time -> Time, now: Time, limit: int) {
    PeriodPriced(rows, start, now) && SpentIn(rows, start, start(now)) < limit
  }

  /** What is counted from the start of the current period on is what was spent in that period: rows of
      earlier periods never count. */
  lemma {:induction false} OnlyThisPeriodCounts(rows: seq<Usage>, start: Time -> Time, now: Time)
    requires Periods(start) && forall i :: 0 <= i < |rows| ==> rows[i].at <= now
    ensures PeriodSum(rows, start(now)) == SpentIn(rows, start, start(now))
    ensures PeriodPartial(rows, start(now)) <==> !PeriodPriced(rows, start, now)
  {
    if rows != [] {
      OnlyThisPeriodCounts(rows[..|rows| - 1], start, now);
      var r := rows[|rows| - 1];
      assert r.at >= start(now) <==> start(r.at) == start(now);
    }
    forall i | 0 <= i < |rows| ensures rows[i].at >= start(now) <==> start(rows[i].at) == start(now) {
      assert start(rows[i].at) <= rows[i].at;
    }
  }

  /** The gate, whatever the ledger: with no row of the future it is open exactly when the switch is on
      and the spend of this day and that of this month are each priced and below the limit; so it opens
      again when the day and the month roll over.  Closed, it names the switch before the day, the day
      before the month, and a missing price before a spent limit. */
  lemma GateMeaning(enabled: bool, rows: seq<Usage>, now: Time, b: Budget)
    requires Periods(b.monthStart) && forall i :: 0 <= i < |rows| ==> rows[i].at <= now
    ensures BudgetBlockReason(enabled, rows, now, b).None? <==>
      enabled && PeriodOpen(rows, DayStart, now, b.day) && PeriodOpen(rows, b.monthStart, now, b.month)
    ensures BudgetBlockReason(enabled, rows, now, b) == Some(TurnedOff) <==> !enabled
    ensures BudgetBlockReason(enabled, rows, now, b) == Some(DayUnpriced) <==>
      enabled && !PeriodPriced(rows, DayStart, now)
    ensures BudgetBlockReason(enabled, rows, now, b) == Some(DaySpent) <==>
      enabled && PeriodPriced(rows, DayStart, now) && !PeriodOpen(rows, DayStart, now, b.day)
    ensures BudgetBlockReason(enabled, rows, now, b) == Some(MonthUnpriced) <==>
      enabled && PeriodOpen(rows, DayStart, now, b.day) && !PeriodPriced(rows, b.monthStart, now)
  {
    DaysArePeriods();
    OnlyThisPeriodCounts(rows, DayStart, now);
    OnlyThisPeriodCounts(rows, b.monthStart, now);
    hide Periods, PeriodSum, PeriodPartial, PeriodPriced, SpentIn, DayStart;
  }

  /** A day starts at midnight and lasts 86,400 seconds. */
  lemma DayMeaning(t: Time)
    ensures DayStart(t) % 86400 == 0 && DayStart(t) <= t < DayStart(t) + 86400
  {
  }

  // When row `i` was about to be spent, at time `g`, the ledger held the rows before it.
  predicate GatedAt(rows: seq<Usage>, i: nat, start: Time -> Time, limit: int, g: Time)
    requires i < |rows|
  {
    && g <= rows[i].at
    && (forall j :: 0 <= j < i ==> rows[j].at <= g)
    && Within(rows[..i], start(g), limit)
  }

  ghost predicate Admitted(rows: seq<Usage>, i: nat, start: Time -> Time, limit: int)
    requires i < |rows|
  {
    exists g :: GatedAt(rows, i, start, limit, g)
  }

  ghost predicate Gated(rows: seq<Usage>, start: Time -> Time, limit: int) {
    forall i :: 0 <= i < |rows| ==> Admitted(rows, i, start, limit)
  }

  /** What a sequential run on the direct provider leaves, when each write to the ledger succeeds. */
  ghost predicate Ledger(rows: seq<Usage>, b: Budget) {
    && Gated(rows, DayStart, b.day) && Gated(rows, b.monthStart, b.month)
    && (forall i :: 0 <= i < |rows| && rows[i].cost.Some? ==> rows[i].cost.value >= 0)
  }

  lemma {:induction false} SpentBelowSum(rows: seq<Usage>, start: Time -> Time, period: Time)
    requires Periods(start) && forall i :: 0 <= i < |rows| && rows[i].cost.Some? ==> rows[i].cost.value >= 0
    ensures 0 <= SpentIn(rows, start, period) <= PeriodSum(rows, period)
  {
    if rows != [] {
      SpentBelowSum(rows[..|rows| - 1], start, period);
    }
  }

  lemma {:induction false} NothingSpentYet(rows: seq<Usage>, start: Time -> Time, period: Time)
    requires forall i :: 0 <= i < |rows| ==> start(rows[i].at) != period
    ensures SpentIn(rows, start, period) == 0
  {
    if rows != [] {
      NothingSpentYet(rows[..|rows| - 1], start, period);
    }
  }

  lemma GatedPrefix(rows: seq<Usage>, start: Time -> Time, limit: int)
    requires Gated(rows, start, limit) && rows != []
    ensures Gated(rows[..|rows| - 1], start, limit)
  {
    var front := rows[..|rows| - 1];
    forall i | 0 <= i < |front| ensures Admitted(front, i, start, limit) {
      assert Admitted(rows, i, start, limit);
      var g :| GatedAt(rows, i, start, limit, g);
      assert front[..i] == rows[..i];
      assert GatedAt(front, i, start, limit, g);
    }
  }

  /** The recorded spend of a period that has a call stays below the limit plus the largest cost of
      one call. */
  lemma {:induction false} SpendIsBounded(rows: seq<Usage>, start: Time -> Time, limit: int, period: Time, largest: int)
    requires Periods(start) && Gated(rows, start, limit)
    requires forall i :: 0 <= i < |rows| && rows[i].cost.Some? ==> 0 <= rows[i].cost.value <= largest
    requires largest >= 0 && exists i :: 0 <= i < |rows| && start(rows[i].at) == period
    ensures SpentIn(rows, start, period) < limit + largest
  {
    var n := |rows| - 1;
    var front, last := rows[..n], rows[n];
    if start(last.at) != period {
      GatedPrefix(rows, start, limit);
      var i :| 0 <= i < |rows| && start(rows[i].at) == period;
      assert front[i] == rows[i];
      SpendIsBounded(front, start, limit, period, largest);
    } else {
      assert Admitted(rows, n, start, limit);
      var g :| GatedAt(rows, n, start, limit, g);
      SpentBelowSum(front, start, start(g));
      PeriodOrder(start, g, last.at);
      if start(g) != period {
        forall j | 0 <= j < n ensures start(front[j].at) != period {
          PeriodOrder(start, front[j].at, g);
        }
        NothingSpentYet(front, start, period);
      }
    }
  }

  /** Each UTC day and each month of a ledger. */
  lemma BudgetsHold(rows: seq<Usage>, b: Budget, i: nat, largest: int)
    requires Ledger(rows, b) && Periods(b.monthStart) && i < |rows| && largest >= 0
    requires forall j :: 0 <= j < |rows| && rows[j].cost.Some? ==> rows[j].cost.value <= largest
    ensures SpentIn(rows, DayStart, DayStart(rows[i].at)) < b.day + largest
    ensures SpentIn(rows, b.monthStart, b.monthStart(rows[i].at)) < b.month + largest
  {
    DaysArePeriods();
    SpendIsBounded(rows, DayStart, b.day, DayStart(rows[i].at), largest);
    SpendIsBounded(rows, b.monthStart, b.month, b.monthStart(rows[i].at), largest);
  }

  /** After a call that could not be priced the gate is closed for the rest of the month, and the
      month has no later row. */
  lemma UnpricedClosesTheMonth(rows: seq<Usage>, b: Budget, i: nat)
    requires Ledger(rows, b) && Periods(b.monthStart) && i < |rows| && Unpriced(rows[i])
    ensures forall enabled, now :: rows[i].at <= now && b.monthStart(now) == b.monthStart(rows[i].at) ==>
      BudgetBlockReason(enabled, rows, now, b).Some?
    ensures forall j :: i < j < |rows| ==> b.monthStart(rows[j].at) > b.monthStart(rows[i].at)
  {
    forall j | i < j < |rows| ensures b.monthStart(rows[j].at) > b.monthStart(rows[i].at) {
      assert Admitted(rows, j, b.monthStart, b.month);
      var g :| GatedAt(rows, j, b.monthStart, b.month, g);
      PeriodOrder(b.monthStart, rows[i].at, g);
      PeriodOrder(b.monthStart, g, rows[j].at);
      assert rows[..j][i] == rows[i];
    }
  }

  // ---- writing the ledger ----

  /** A row that the gate admitted at time `g` keeps the ledger. */
  lemma RowAdmitted(rows: seq<Usage>, b: Budget, g: Time, row: Usage, enabled: bool)
    requires Ledger(rows, b) && (forall i :: 0 <= i < |rows| ==> rows[i].at <= g) && g <= row.at
    requires BudgetBlockReason(enabled, rows, g, b).None? && (row.cost.Some? ==> row.cost.value >= 0)
    ensures Ledger(rows + [row], b)
  {
    GatedSnoc(rows, DayStart, b.day, g, row);
    GatedSnoc(rows, b.monthStart, b.month, g, row);
  }

  lemma GatedSnoc(rows: seq<Usage>, start: Time -> Time, limit: int, g: Time, row: Usage)
    requires Gated(rows, start, limit) && (forall i :: 0 <= i < |rows| ==> rows[i].at <= g) && g <= row.at
    requires Within(rows, start(g), limit)
    ensures Gated(rows + [row], start, limit)
  {
    var more := rows + [row];
    forall i | 0 <= i < |more| ensures Admitted(more, i, start, limit) {
      if i < |rows| {
        assert Admitted(rows, i, start, limit);
        var h :| GatedAt(rows, i, start, limit, h);
        assert more[..i] == rows[..i];
        assert GatedAt(more, i, start, limit, h);
      } else {
        assert more[..i] == rows;
        assert GatedAt(more, i, start, limit, g);
      }
    }
  }

  function RowFor(a: Option<Id>, provider: Provider, model: Text, t: Tokens, at: Time): Usage {
    Usage(at, a, provider, CostUsd(model, t))
  }

  /** `_log_usage`.  A failed write is rolled back alone and does not fail the caller. */
  method LogUsage(session: Session, a: Option<Id>, provider: Provider, model: Text, t: Tokens, at: Time, writes: bool)
    modifies session`usage
    ensures session.usage == old(session.usage) + if writes then [Usage(at, a, provider, CostUsd(model, t))] else []
  {
    if writes {
      session.usage := session.usage + [RowFor(a, provider, model, t, at)];
    }
  }

  // What a one-shot guess does: the clock at the gate and at the ledger write, and the served call.
  datatype Guess = Guess(gateAt: Time, loggedAt: Time, provider: Provider, replied: bool, model: Text, tokens: Tokens,
                         writes: bool)

  function GuessRow(a: Id, guess: Guess): Usage {
    RowFor(Some(a), guess.provider, guess.model, guess.tokens, guess.loggedAt)
  }

  /** The gate of `_autofill_model_number`.  `wanted` is the conjunction of the checks before it. */
  method AutofillModelNumber(session: Session, a: Id, wanted: bool, guess: Guess, b: Budget) returns (called: bool)
    modifies session`usage
    ensures called <==> wanted && BudgetBlockReason(session.assistantEnabled, old(session.usage), guess.gateAt, b).None?
    ensures session.usage == old(session.usage)
      + if called && guess.replied && guess.writes
        then [Usage(guess.loggedAt, Some(a), guess.provider, CostUsd(guess.model, guess.tokens))] else []
    ensures old(Ledger(session.usage, b)) && guess.gateAt <= guess.loggedAt
            && (forall i :: 0 <= i < |old(session.usage)| ==> old(session.usage)[i].at <= guess.gateAt) ==>
      Ledger(session.usage, b)
      && forall i :: 0 <= i < |session.usage| ==> session.usage[i].at <= guess.loggedAt
  {
    if !wanted || BudgetBlockReason(session.assistantEnabled, session.usage, guess.gateAt, b).Some? {
      return false;
    }
    ghost var rows := session.usage;
    assert rows + [] == rows;
    if guess.replied {
      LogUsage(session, Some(a), guess.provider, guess.model, guess.tokens, guess.loggedAt, guess.writes);
    }
    if Ledger(rows, b) && guess.gateAt <= guess.loggedAt
       && forall i :: 0 <= i < |rows| ==> rows[i].at <= guess.gateAt {
      RowAdmitted(rows, b, guess.gateAt, GuessRow(a, guess), session.assistantEnabled);
    }
    return true;
  }

  // ---- deleting and merging assets leave the ledger's figures alone ----

  // The rows differ at most in the asset they name.
  predicate SameCharges(rows: seq<Usage>, other: seq<Usage>) {
    |rows| == |other| && forall i :: 0 <= i < |rows| ==>
      rows[i].at == other[i].at && rows[i].provider == other[i].provider && rows[i].cost == other[i].cost
  }

  lemma {:induction false} SameChargesSameSpend(rows: seq<Usage>, other: seq<Usage>, start: Time)
    requires SameCharges(rows, other)
    ensures PeriodSum(rows, start) == PeriodSum(other, start)
    ensures PeriodPartial(rows, start) <==> PeriodPartial(other, start)
  {
    if rows != [] {
      SameChargesSameSpend(rows[..|rows| - 1], other[..|rows| - 1], start);
    }
    if PeriodPartial(rows, start) {
      var i :| 0 <= i < |rows| && rows[i].at >= start && Unpriced(rows[i]);
      assert other[i].at >= start && Unpriced(other[i]);
    }
    if PeriodPartial(other, start) {
      var i :| 0 <= i < |other| && other[i].at >= start && Unpriced(other[i]);
      assert rows[i].at >= start && Unpriced(rows[i]);
    }
  }

  lemma SameChargesGated(rows: seq<Usage>, other: seq<Usage>, start: Time -> Time, limit: int)
    requires SameCharges(rows, other) && Gated(rows, start, limit)
    ensures Gated(other, start, limit)
  {
    forall i | 0 <= i < |other| ensures Admitted(other, i, start, limit) {
      assert Admitted(rows, i, start, limit);
      var g :| GatedAt(rows, i, start, limit, g);
      SameChargesSameSpend(rows[..i], other[..i], start(g));
      assert GatedAt(other, i, start, limit, g);
    }
  }

  /** Whatever asset a ledger row names, before and after a deletion or a merge, `_period_spend` is the
      same from every start, and the gate admitted the same rows. */
  lemma DeleteKeepsLedger(db: Db, db': Db, a: Id, b: Budget, start: Time)
    requires Deleted(db, db', a)
    ensures PeriodSum(db'.usage, start) == PeriodSum(db.usage, start)
    ensures PeriodPartial(db'.usage, start) <==> PeriodPartial(db.usage, start)
    ensures Ledger(db.usage, b) ==> Ledger(db'.usage, b)
  {
    LedgerRenamed(db.usage, db'.usage, b, start);
  }

  lemma MergeKeepsLedger(db: Db, db': Db, s: Id, d: Id, b: Budget, start: Time)
    requires Merged(db, db', s, d)
    ensures PeriodSum(db'.usage, start) == PeriodSum(db.usage, start)
    ensures PeriodPartial(db'.usage, start) <==> PeriodPartial(db.usage, start)
    ensures Ledger(db.usage, b) ==> Ledger(db'.usage, b)
  {
    LedgerRenamed(db.usage, db'.usage, b, start);
  }

  lemma LedgerRenamed(rows: seq<Usage>, other: seq<Usage>, b: Budget, start: Time)
    requires SameCharges(rows, other)
    ensures PeriodSum(other, start) == PeriodSum(rows, start)
    ensures PeriodPartial(other, start) <==> PeriodPartial(rows, start)
    ensures Ledger(rows, b) ==> Ledger(other, b)
  {
    SameChargesSameSpend(rows, other, start);
    if Ledger(rows, b) {
      SameChargesGated(rows, other, DayStart, b.day);
      SameChargesGated(rows, other, b.monthStart, b.month);
    }
  }
}
