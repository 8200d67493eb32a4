/**
 * Provider budgets: the durable ledger (intelligence/provider_budget_store.py) that sums its
 * reservation rows on every admission. Money is real; rounding of binary floats is not modelled.
 */
module Budget {
  import opened Sequences

  type Id = nat

  const INPUT_USD_PER_MILLION: real := 0.25
  const OUTPUT_USD_PER_MILLION: real := 2.0
  const CARRY_IN_AUD: real := 1.0

  /** A time of admission: the instant, its UTC day and its month. */
  datatype Moment = Moment(instant: int, day: int, month: int)

  datatype Config = Config(
    maxRequests: int, maxSuccesses: int, maxRetries: int, maxOutputTokens: int,
    maxDailyAud: real, maxMonthlyAud: real, usdToAud: real)
  {
    /** The configuration's own checks; request, success and retry limits may be any number. */
    predicate Valid() { 0.0 <= maxDailyAud && 0.0 <= maxMonthlyAud && 1 <= maxOutputTokens }
  }

  datatype RowState = Reserved | TransportStarted | Completed

  datatype Row = Row(
    request: Id, attempt: int, day: int, month: int, isRetry: bool, usd: real, state: RowState, success: bool)

  datatype Ledger = Ledger(rows: seq<Row>, authoritativeFrom: Option<int>, openingMonth: Option<int>)

  /** What the owner attests when opening the ledger; a missing authority reference is None. */
  datatype OpeningTerms = OpeningTerms(
    cutover: Moment, authorityFrom: Moment, period: int, carryInAud: real, monthlyLimitAud: real, authority: Option<Id>)
  {
    predicate Valid() {
      && period == cutover.month && carryInAud == CARRY_IN_AUD && monthlyLimitAud == 20.0
      && cutover.day < authorityFrom.day && authority.Some?
    }
  }

  function Estimate(config: Config, inputTokens: int): real {
    inputTokens as real / 1000000.0 * INPUT_USD_PER_MILLION
    + config.maxOutputTokens as real / 1000000.0 * OUTPUT_USD_PER_MILLION
  }

  /** The price is 25 US cents per million input tokens and two dollars per million output tokens, linearly. */
  lemma {:induction false} EstimateIsTheTariff(config: Config, inputTokens: int, millionsIn: int, millionsOut: int)
    ensures Estimate(config, inputTokens) == (inputTokens + 8 * config.maxOutputTokens) as real / 4000000.0
    ensures Estimate(config.(maxOutputTokens := 1000000 * millionsOut), 1000000 * millionsIn)
         == 0.25 * millionsIn as real + 2.0 * millionsOut as real
  {
  }

  /** What the provider charges. */
  function Price(config: Config, inputTokens: int): real { (inputTokens + 8 * config.maxOutputTokens) as real / 4000000.0 }

  lemma {:induction false} TariffHolds(config: Config, inputTokens: int)
    ensures Estimate(config, inputTokens) == Price(config, inputTokens)
  {
    EstimateIsTheTariff(config, inputTokens, 0, 0);
  }

  // ----- Aggregates: SELECT COUNT/SUM over the rows -----

  function Tally(w: Row -> int, rows: seq<Row>): int {
    if rows == [] then 0 else Tally(w, rows[..|rows| - 1]) + w(rows[|rows| - 1])
  }

  function Total(w: Row -> real, rows: seq<Row>): real {
    if rows == [] then 0.0 else Total(w, rows[..|rows| - 1]) + w(rows[|rows| - 1])
  }

  function OnDay(d: int): Row -> int { (r: Row) => if r.day == d then 1 else 0 }

  function RetryOn(d: int): Row -> int { (r: Row) => if r.day == d && r.isRetry then 1 else 0 }

  function SuccessOn(d: int): Row -> int { (r: Row) => if r.day == d && r.success then 1 else 0 }

  function InMonth(m: int): Row -> int { (r: Row) => if r.month == m then 1 else 0 }

  function DayUsd(d: int): Row -> real { (r: Row) => if r.day == d then r.usd else 0.0 }

  function MonthUsd(m: int): Row -> real { (r: Row) => if r.month == m then r.usd else 0.0 }

  function Carry(l: Ledger, m: int): real { if l.openingMonth == Some(m) then CARRY_IN_AUD else 0.0 }

  lemma {:induction false} Snoc(w: Row -> int, v: Row -> real, rows: seq<Row>, r: Row)
    ensures Tally(w, rows + [r]) == Tally(w, rows) + w(r)
    ensures Total(v, rows + [r]) == Total(v, rows) + v(r)
  {
    assert (rows + [r])[..|rows|] == rows;
  }

  lemma {:induction false} TallyBelow(w: Row -> int, v: Row -> int, rows: seq<Row>)
    requires forall r :: r in rows ==> w(r) <= v(r)
    ensures Tally(w, rows) <= Tally(v, rows)
  {
    if rows != [] {
      assert rows[|rows| - 1] in rows;
      TallyBelow(w, v, rows[..|rows| - 1]);
    }
  }

  // ----- Transactions -----

  predicate IsReserved(rows: seq<Row>, request: Id, attempt: int) {
    exists r :: r in rows && r.request == request && r.attempt == attempt
  }

  predicate OverBudget(l: Ledger, config: Config, at: Moment, usd: real, isRetry: bool) {
    || Tally(OnDay(at.day), l.rows) >= config.maxRequests
    || Tally(RetryOn(at.day), l.rows) + (if isRetry then 1 else 0) > config.maxRetries
    || Tally(SuccessOn(at.day), l.rows) >= config.maxSuccesses
    || (Total(DayUsd(at.day), l.rows) + usd) * config.usdToAud > config.maxDailyAud
    || Carry(l, at.month) + (Total(MonthUsd(at.month), l.rows) + usd) * config.usdToAud > config.maxMonthlyAud
  }

  /** Room for one request more: each count below its limit, and what is spent after it within the money limits. */
  predicate WithinLimits(rows: seq<Row>, carriesIn: bool, config: Config, at: Moment, usd: real, isRetry: bool) {
    var monthly := Total((r: Row) => if r.month == at.month then r.usd else 0.0, rows) + usd;
    && Count((r: Row) => r.day == at.day, rows) < config.maxRequests
    && Count((r: Row) => r.day == at.day && r.success, rows) < config.maxSuccesses
    && Count((r: Row) => r.day == at.day && r.isRetry, rows) <= config.maxRetries - (if isRetry then 1 else 0)
    && (Total((r: Row) => if r.day == at.day then r.usd else 0.0, rows) + usd) * config.usdToAud <= config.maxDailyAud
    && monthly * config.usdToAud <= config.maxMonthlyAud - (if carriesIn then 1.0 else 0.0)
  }

  /** Adding up ones is counting, and adding up equal amounts gives equal totals. */
  lemma {:induction false} TallyCounts(w: Row -> int, p: Row -> bool, v: Row -> real, u: Row -> real, rows: seq<Row>)
    requires forall r :: w(r) == (if p(r) then 1 else 0) && v(r) == u(r)
    ensures Tally(w, rows) == Count(p, rows) && Total(v, rows) == Total(u, rows)
  {
    if rows != [] {
      var init, last := rows[..|rows| - 1], rows[|rows| - 1];
      TallyCounts(w, p, v, u, init);
      assert rows == init + [last];
      FilterSnoc(p, init, last);
    }
  }

  lemma {:induction false} WithinLimitsIff(l: Ledger, config: Config, at: Moment, usd: real, isRetry: bool)
    ensures !OverBudget(l, config, at, usd, isRetry) <==>
      WithinLimits(l.rows, l.openingMonth == Some(at.month), config, at, usd, isRetry)
  {
    var daily := (r: Row) => if r.day == at.day then r.usd else 0.0;
    var monthly := (r: Row) => if r.month == at.month then r.usd else 0.0;
    TallyCounts(OnDay(at.day), (r: Row) => r.day == at.day, DayUsd(at.day), daily, l.rows);
    TallyCounts(SuccessOn(at.day), (r: Row) => r.day == at.day && r.success, MonthUsd(at.month), monthly, l.rows);
    TallyCounts(RetryOn(at.day), (r: Row) => r.day == at.day && r.isRetry, MonthUsd(at.month), monthly, l.rows);
  }

  datatype Step =
    | Admit(config: Config, at: Moment, inputTokens: int, isRetry: bool, request: Id, attempt: int, bootstrap: int)
    | StartTransport(request: Id, attempt: int)
    | Succeed(request: Id, attempt: int)
    | Open(month: int, authoritativeFrom: int)

  /** The first admission stores a cutover of its own when none is stored yet. */
  function WithCutover(l: Ledger, bootstrap: int): Ledger {
    if l.authoritativeFrom.Some? then l else l.(authoritativeFrom := Some(bootstrap))
  }

  predicate Admits(l: Ledger, s: Step)
    requires s.Admit?
  {
    var known := WithCutover(l, s.bootstrap);
    && s.at.instant >= known.authoritativeFrom.value
    && known.openingMonth.Some?
    && !OverBudget(known, s.config, s.at, Estimate(s.config, s.inputTokens), s.isRetry)
    && !IsReserved(known.rows, s.request, s.attempt)
  }

  function NewRow(s: Step): Row
    requires s.Admit?
  {
    Row(s.request, s.attempt, s.at.day, s.at.month, s.isRetry, Estimate(s.config, s.inputTokens), Reserved, false)
  }

  /** UPDATE ... WHERE request_id=? AND attempt=?; a missing row raises and changes nothing. */
  function Mark(rows: seq<Row>, request: Id, attempt: int, state: RowState, success: bool): seq<Row> {
    if rows == [] then []
    else
      var last := rows[|rows| - 1];
      Mark(rows[..|rows| - 1], request, attempt, state, success)
      + [if last.request == request && last.attempt == attempt then last.(state := state, success := success) else last]
  }

  /** The ledger after one transaction, whether or not it was refused. */
  function Next(l: Ledger, s: Step): Ledger {
    match s
    case Admit(_, _, _, _, _, _, bootstrap) =>
      var known := WithCutover(l, bootstrap);
      if Admits(l, s) then known.(rows := known.rows + [NewRow(s)]) else known
    case StartTransport(request, attempt) => l.(rows := Mark(l.rows, request, attempt, TransportStarted, false))
    case Succeed(request, attempt) => l.(rows := Mark(l.rows, request, attempt, Completed, true))
    case Open(month, from) =>
      if l.openingMonth.None? && l.authoritativeFrom.None?
      then l.(openingMonth := Some(month), authoritativeFrom := Some(from)) else l
  }

  function Run(l: Ledger, steps: seq<Step>): Ledger {
    if steps == [] then l else Next(Run(l, steps[..|steps| - 1]), steps[|steps| - 1])
  }

  // ----- What marking a row can and cannot change -----

  ghost predicate Stable<N>(w: Row -> N) {
    forall r: Row, state, success :: w(r.(state := state, success := success)) == w(r)
  }

  lemma {:induction false} MarkKeeps(
    w: Row -> int, v: Row -> real, rows: seq<Row>, request: Id, attempt: int, state: RowState, success: bool)
    requires Stable(w) && Stable(v)
    ensures Tally(w, Mark(rows, request, attempt, state, success)) == Tally(w, rows)
    ensures Total(v, Mark(rows, request, attempt, state, success)) == Total(v, rows)
  {
    if rows != [] {
      var init, last := rows[..|rows| - 1], rows[|rows| - 1];
      MarkKeeps(w, v, init, request, attempt, state, success);
      var marked := if last.request == request && last.attempt == attempt
                    then last.(state := state, success := success) else last;
      Snoc(w, v, Mark(init, request, attempt, state, success), marked);
      assert w(marked) == w(last) && v(marked) == v(last);
    }
  }

  lemma {:induction false} MarkAbsent(rows: seq<Row>, request: Id, attempt: int, state: RowState, success: bool)
    requires !IsReserved(rows, request, attempt)
    ensures Mark(rows, request, attempt, state, success) == rows
  {
    if rows != [] {
      assert rows[|rows| - 1] in rows;
      MarkAbsent(rows[..|rows| - 1], request, attempt, state, success);
    }
  }

  /** Marking rewrites the state of exactly the named attempt's row. */
  lemma {:induction false} MarkAt(rows: seq<Row>, request: Id, attempt: int, state: RowState, success: bool)
    ensures var marked := Mark(rows, request, attempt, state, success);
      |marked| == |rows| && forall i :: 0 <= i < |rows| ==>
        marked[i] == if rows[i].request == request && rows[i].attempt == attempt
                     then rows[i].(state := state, success := success) else rows[i]
  {
    if rows != [] { MarkAt(rows[..|rows| - 1], request, attempt, state, success); }
  }

  lemma {:induction false} WeightsAreStable(k: int)
    ensures Stable(OnDay(k)) && Stable(RetryOn(k)) && Stable(InMonth(k))
    ensures Stable(DayUsd(k)) && Stable(MonthUsd(k))
  {
  }

  // ----- Caps hold after every interleaving of transactions -----

  ghost predicate DayCapped(l: Ledger, config: Config, d: int) {
    && 0 <= Tally(OnDay(d), l.rows) <= Max(0, config.maxRequests)
    && 0 <= Tally(RetryOn(d), l.rows) <= Max(0, config.maxRetries)
    && (Tally(OnDay(d), l.rows) > 0 ==> Total(DayUsd(d), l.rows) * config.usdToAud <= config.maxDailyAud)
  }

  ghost predicate MonthCapped(l: Ledger, config: Config, m: int) {
    && Tally(InMonth(m), l.rows) >= 0
    && (Tally(InMonth(m), l.rows) > 0 ==>
          Carry(l, m) + Total(MonthUsd(m), l.rows) * config.usdToAud <= config.maxMonthlyAud)
  }

  ghost predicate Capped(l: Ledger, config: Config) {
    && (forall d :: DayCapped(l, config, d))
    && (forall m :: MonthCapped(l, config, m))
    && (l.openingMonth.None? ==> l.rows == [])
  }

  lemma {:induction false} AppendKeepsDay(l: Ledger, config: Config, r: Row, d: int)
    requires DayCapped(l, config, d)
    requires r.day == d ==>
      && Tally(OnDay(d), l.rows) < config.maxRequests
      && Tally(RetryOn(d), l.rows) + (if r.isRetry then 1 else 0) <= config.maxRetries
      && (Total(DayUsd(d), l.rows) + r.usd) * config.usdToAud <= config.maxDailyAud
    ensures DayCapped(l.(rows := l.rows + [r]), config, d)
  {
    Snoc(OnDay(d), DayUsd(d), l.rows, r);
    Snoc(RetryOn(d), DayUsd(d), l.rows, r);
    if r.day == d {
      assert Total(DayUsd(d), l.rows + [r]) == Total(DayUsd(d), l.rows) + r.usd;
    } else {
      assert Total(DayUsd(d), l.rows + [r]) == Total(DayUsd(d), l.rows);
    }
  }

  lemma {:induction false} AppendKeepsMonth(l: Ledger, config: Config, r: Row, m: int)
    requires MonthCapped(l, config, m)
    requires r.month == m ==>
      Carry(l, m) + (Total(MonthUsd(m), l.rows) + r.usd) * config.usdToAud <= config.maxMonthlyAud
    ensures MonthCapped(l.(rows := l.rows + [r]), config, m)
  {
    Snoc(InMonth(m), MonthUsd(m), l.rows, r);
    if r.month == m {
      assert Total(MonthUsd(m), l.rows + [r]) == Total(MonthUsd(m), l.rows) + r.usd;
    } else {
      assert Total(MonthUsd(m), l.rows + [r]) == Total(MonthUsd(m), l.rows);
    }
  }

  lemma {:induction false} AdmitKeepsDay(l: Ledger, s: Step, d: int)
    requires s.Admit? && Admits(l, s) && DayCapped(l, s.config, d)
    ensures DayCapped(Next(l, s), s.config, d)
  {
    var known := WithCutover(l, s.bootstrap);
    assert DayCapped(known, s.config, d);
    AppendKeepsDay(known, s.config, NewRow(s), d);
  }

  lemma {:induction false} AdmitKeepsMonth(l: Ledger, s: Step, m: int)
    requires s.Admit? && Admits(l, s) && MonthCapped(l, s.config, m)
    ensures MonthCapped(Next(l, s), s.config, m)
  {
    var known := WithCutover(l, s.bootstrap);
    assert MonthCapped(known, s.config, m);
    AppendKeepsMonth(known, s.config, NewRow(s), m);
  }

  lemma {:induction false} MarkKeepsDay(
    l: Ledger, config: Config, d: int, request: Id, attempt: int, state: RowState, success: bool)
    requires DayCapped(l, config, d)
    ensures DayCapped(l.(rows := Mark(l.rows, request, attempt, state, success)), config, d)
  {
    WeightsAreStable(d);
    MarkKeeps(OnDay(d), DayUsd(d), l.rows, request, attempt, state, success);
    MarkKeeps(RetryOn(d), DayUsd(d), l.rows, request, attempt, state, success);
  }

  lemma {:induction false} MarkKeepsMonth(
    l: Ledger, config: Config, m: int, request: Id, attempt: int, state: RowState, success: bool)
    requires MonthCapped(l, config, m)
    ensures MonthCapped(l.(rows := Mark(l.rows, request, attempt, state, success)), config, m)
  {
    WeightsAreStable(m);
    MarkKeeps(InMonth(m), MonthUsd(m), l.rows, request, attempt, state, success);
  }

  lemma {:induction false} MarkKeepsCaps(
    l: Ledger, config: Config, request: Id, attempt: int, state: RowState, success: bool)
    requires Capped(l, config)
    ensures Capped(l.(rows := Mark(l.rows, request, attempt, state, success)), config)
  {
    var after := l.(rows := Mark(l.rows, request, attempt, state, success));
    forall d ensures DayCapped(after, config, d) {
      MarkKeepsDay(l, config, d, request, attempt, state, success);
    }
    forall m ensures MonthCapped(after, config, m) {
      MarkKeepsMonth(l, config, m, request, attempt, state, success);
    }
  }

  lemma {:induction false} StepKeepsCaps(l: Ledger, config: Config, s: Step)
    requires Capped(l, config) && (s.Admit? ==> s.config == config)
    ensures Capped(Next(l, s), config)
  {
    match s
    case Admit(_, _, _, _, _, _, _) =>
      if Admits(l, s) {
        forall d ensures DayCapped(Next(l, s), config, d) {
          assert DayCapped(l, config, d);
          AdmitKeepsDay(l, s, d);
        }
        forall m ensures MonthCapped(Next(l, s), config, m) {
          assert MonthCapped(l, config, m);
          AdmitKeepsMonth(l, s, m);
        }
      } else {
        assert forall d :: DayCapped(l, config, d) ==> DayCapped(Next(l, s), config, d);
        assert forall m :: MonthCapped(l, config, m) ==> MonthCapped(Next(l, s), config, m);
      }
    case StartTransport(request, attempt) => MarkKeepsCaps(l, config, request, attempt, TransportStarted, false);
    case Succeed(request, attempt) => MarkKeepsCaps(l, config, request, attempt, Completed, true);
    case Open(month, from) =>
      if l.openingMonth.None? && l.authoritativeFrom.None? {
        assert l.rows == [];
      } else {
        assert Next(l, s) == l;
      }
  }

  const EMPTY: Ledger := Ledger([], None, None)

  /** For a fixed configuration no interleaving of any transactions exceeds a daily or monthly cap. */
  lemma {:induction false} CapsHold(config: Config, steps: seq<Step>)
    requires forall s :: s in steps && s.Admit? ==> s.config == config
    ensures Capped(Run(EMPTY, steps), config)
  {
    if steps != [] {
      CapsHold(config, steps[..|steps| - 1]);
      assert steps[|steps| - 1] in steps;
      StepKeepsCaps(Run(EMPTY, steps[..|steps| - 1]), config, steps[|steps| - 1]);
    }
  }

  // ----- Daily successes -----

  /** A dispatch that finishes, one way or the other, before the next one is admitted. */
  function Dispatch(l: Ledger, s: Step, succeeds: bool): Ledger
    requires s.Admit?
  {
    var admitted := Next(l, s);
    if !Admits(l, s) then admitted
    else
      var started := Next(admitted, StartTransport(s.request, s.attempt));
      if succeeds then Next(started, Succeed(s.request, s.attempt)) else started
  }

  function RunSerially(l: Ledger, dispatches: seq<(Step, bool)>): Ledger
    requires forall d :: d in dispatches ==> d.0.Admit?
  {
    if dispatches == [] then l
    else
      assert dispatches[|dispatches| - 1] in dispatches;
      Dispatch(RunSerially(l, dispatches[..|dispatches| - 1]),
               dispatches[|dispatches| - 1].0, dispatches[|dispatches| - 1].1)
  }

  lemma {:induction false} MarkNewest(rows: seq<Row>, r: Row, state: RowState, success: bool)
    requires !IsReserved(rows, r.request, r.attempt)
    ensures Mark(rows + [r], r.request, r.attempt, state, success)
         == rows + [r.(state := state, success := success)]
  {
    assert (rows + [r])[..|rows|] == rows;
    MarkAbsent(rows, r.request, r.attempt, state, success);
  }

  /** A finished dispatch leaves exactly one new row, successful or not. */
  lemma {:induction false} DispatchRow(l: Ledger, s: Step, succeeds: bool)
    requires s.Admit? && Admits(l, s)
    ensures Dispatch(l, s, succeeds).rows ==
      l.rows + [NewRow(s).(state := if succeeds then Completed else TransportStarted, success := succeeds)]
  {
    var r := NewRow(s);
    MarkNewest(l.rows, r, TransportStarted, false);
    MarkNewest(l.rows, r.(state := TransportStarted, success := false), Completed, true);
  }

  lemma {:induction false} DispatchSuccesses(l: Ledger, s: Step, succeeds: bool, d: int)
    requires s.Admit? && Tally(SuccessOn(d), l.rows) <= Max(0, s.config.maxSuccesses)
    ensures Tally(SuccessOn(d), Dispatch(l, s, succeeds).rows) <= Max(0, s.config.maxSuccesses)
  {
    if Admits(l, s) {
      assert Tally(SuccessOn(s.at.day), l.rows) < s.config.maxSuccesses;
      DispatchRow(l, s, succeeds);
      Snoc(SuccessOn(d), DayUsd(d), l.rows,
           NewRow(s).(state := if succeeds then Completed else TransportStarted, success := succeeds));
    } else {
      assert Dispatch(l, s, succeeds).rows == l.rows;
    }
  }

  /** Without overlap the daily success limit holds for every sequence of dispatches. */
  lemma {:induction false} SerialSuccessesCapped(config: Config, dispatches: seq<(Step, bool)>, d: int)
    requires forall x :: x in dispatches ==> x.0.Admit? && x.0.config == config
    ensures Tally(SuccessOn(d), RunSerially(EMPTY, dispatches).rows) <= Max(0, config.maxSuccesses)
  {
    if dispatches != [] {
      var init, last := dispatches[..|dispatches| - 1], dispatches[|dispatches| - 1];
      assert last in dispatches;
      SerialSuccessesCapped(config, init, d);
      DispatchSuccesses(RunSerially(EMPTY, init), last.0, last.1, d);
    }
  }

  /** Under any overlap the day's successes stay within its requests, and so within the request limit. */
  lemma {:induction false} SuccessesWithinRequests(config: Config, steps: seq<Step>, d: int)
    requires forall s :: s in steps && s.Admit? ==> s.config == config
    ensures Tally(SuccessOn(d), Run(EMPTY, steps).rows) <= Tally(OnDay(d), Run(EMPTY, steps).rows)
    ensures Tally(SuccessOn(d), Run(EMPTY, steps).rows) <= Max(0, config.maxRequests)
  {
    CapsHold(config, steps);
    assert DayCapped(Run(EMPTY, steps), config, d);
    TallyBelow(SuccessOn(d), OnDay(d), Run(EMPTY, steps).rows);
  }

  // ----- An admission before the opening balance locks the opening out -----

  /** A bootstrap cutover is stored, and no opening balance. */
  predicate Locked(l: Ledger) { l.openingMonth.None? && l.authoritativeFrom.Some? && l.rows == [] }

  /** From there no later transaction changes the ledger, and none is ever admitted. */
  lemma {:induction false} BootstrapLocksLedger(l: Ledger, steps: seq<Step>)
    requires Locked(l)
    ensures Run(l, steps) == l
    ensures forall s :: s in steps && s.Admit? ==> !Admits(l, s)
  {
    if steps != [] {
      BootstrapLocksLedger(l, steps[..|steps| - 1]);
      assert steps == steps[..|steps| - 1] + [steps[|steps| - 1]];
    }
  }

  /** Some admission is attempted before any opening balance. */
  ghost predicate AdmitsBeforeOpening(steps: seq<Step>) {
    exists i :: 0 <= i < |steps| && steps[i].Admit? && forall j :: 0 <= j < i ==> !steps[j].Open?
  }

  ghost predicate Opens(steps: seq<Step>) { exists i :: 0 <= i < |steps| && steps[i].Open? }

  lemma {:induction false} AdmitsBeforeOpeningSnoc(steps: seq<Step>, s: Step)
    ensures AdmitsBeforeOpening(steps + [s]) <==> AdmitsBeforeOpening(steps) || (s.Admit? && !Opens(steps))
    ensures Opens(steps + [s]) <==> Opens(steps) || s.Open?
  {
    var longer := steps + [s];
    if AdmitsBeforeOpening(steps) {
      var i :| 0 <= i < |steps| && steps[i].Admit? && forall j :: 0 <= j < i ==> !steps[j].Open?;
      assert longer[i].Admit? && forall j :: 0 <= j < i ==> longer[j] == steps[j];
    }
    if s.Admit? && !Opens(steps) {
      assert longer[|steps|].Admit? && forall j :: 0 <= j < |steps| ==> longer[j] == steps[j];
    }
    if Opens(steps) {
      var i :| 0 <= i < |steps| && steps[i].Open?;
      assert longer[i].Open?;
    }
    assert s.Open? ==> longer[|steps|].Open?;
    if AdmitsBeforeOpening(longer) {
      var i :| 0 <= i < |longer| && longer[i].Admit? && forall j :: 0 <= j < i ==> !longer[j].Open?;
      assert forall j :: 0 <= j < i ==> longer[j] == steps[j];
    }
  }

  /** Over every run: the ledger is locked exactly when an admission came before the opening balance. */
  lemma {:induction false} LockedIff(steps: seq<Step>)
    ensures Locked(Run(EMPTY, steps)) <==> AdmitsBeforeOpening(steps)
    ensures Run(EMPTY, steps).openingMonth.Some? <==> Opens(steps) && !AdmitsBeforeOpening(steps)
    ensures !Opens(steps) && !AdmitsBeforeOpening(steps) ==> Run(EMPTY, steps) == EMPTY
    ensures Run(EMPTY, steps).openingMonth.Some? ==> Run(EMPTY, steps).authoritativeFrom.Some?
  {
    if steps != [] {
      var prior, s := steps[..|steps| - 1], steps[|steps| - 1];
      assert steps == prior + [s];
      LockedIff(prior);
      AdmitsBeforeOpeningSnoc(prior, s);
    }
  }

  // ----- The ledger as an object -----

  class DurableLedger {
    var rows: seq<Row>
    var authoritativeFrom: Option<int>
    var openingMonth: Option<int>

    function State(): Ledger
      reads this
    {
      Ledger(rows, authoritativeFrom, openingMonth)
    }

    constructor ()
      ensures State() == EMPTY
    {
      rows, authoritativeFrom, openingMonth := [], None, None;
    }

    /** admit: the estimated cost, or a denial. */
    method TryAdmit(
      config: Config, at: Moment, inputTokens: int, isRetry: bool, request: Id, attempt: int, bootstrap: int)
      returns (usd: Option<real>)
      modifies this
      ensures var s := Admit(config, at, inputTokens, isRetry, request, attempt, bootstrap);
        && State() == Next(old(State()), s)
        && usd == (if Admits(old(State()), s) then Some(Estimate(config, inputTokens)) else None)
      ensures openingMonth == old(openingMonth)
      ensures authoritativeFrom == if old(authoritativeFrom).Some? then old(authoritativeFrom) else Some(bootstrap)
      ensures usd.Some? <==>
        && openingMonth.Some? && authoritativeFrom.value <= at.instant
        && (forall r :: r in old(rows) ==> (r.request, r.attempt) != (request, attempt))
        && WithinLimits(old(rows), openingMonth == Some(at.month), config, at, Price(config, inputTokens), isRetry)
      ensures usd.Some? ==> usd.value == Price(config, inputTokens)
      ensures rows == old(rows) + if usd.None? then [] else
        [Row(request, attempt, at.day, at.month, isRetry, usd.value, Reserved, false)]
    {
      TariffHolds(config, inputTokens);
      WithinLimitsIff(State(), config, at, Estimate(config, inputTokens), isRetry);
      var estimated := Estimate(config, inputTokens);
      usd := None;
      if authoritativeFrom.None? {
        authoritativeFrom := Some(bootstrap);
      }
      if at.instant < authoritativeFrom.value || openingMonth.None? {
        return;
      }
      if OverBudget(State(), config, at, estimated, isRetry) || IsReserved(rows, request, attempt) {
        return;
      }
      rows := rows + [Row(request, attempt, at.day, at.month, isRetry, estimated, Reserved, false)];
      usd := Some(estimated);
    }

    /** mark_transport_started and record_success; a missing reservation raises. */
    method Update(request: Id, attempt: int, success: bool) returns (found: bool)
      modifies this
      ensures found <==> IsReserved(old(rows), request, attempt)
      ensures State() == Next(old(State()), if success then Succeed(request, attempt) else StartTransport(request, attempt))
      ensures authoritativeFrom == old(authoritativeFrom) && openingMonth == old(openingMonth)
      ensures |rows| == |old(rows)| && forall i :: 0 <= i < |rows| ==>
        rows[i] == if (old(rows)[i].request, old(rows)[i].attempt) != (request, attempt) then old(rows)[i]
                   else old(rows)[i].(state := if success then Completed else TransportStarted, success := success)
    {
      MarkAt(rows, request, attempt, if success then Completed else TransportStarted, success);
      found := IsReserved(rows, request, attempt);
      var state := if success then Completed else TransportStarted;
      if found {
        rows := Mark(rows, request, attempt, state, success);
      } else {
        MarkAbsent(rows, request, attempt, state, success);
      }
    }

    /** initialize_owner_opening_balance: only the attested terms, and only on an untouched ledger. */
    method OpenBalance(terms: OpeningTerms) returns (ok: bool)
      modifies this
      ensures ok <==> terms.Valid() && old(openingMonth).None? && old(authoritativeFrom).None?
      ensures State() == if terms.Valid() then Next(old(State()), Open(terms.period, terms.authorityFrom.instant)) else old(State())
      ensures rows == old(rows)
      ensures ok ==> openingMonth == Some(terms.period) && authoritativeFrom == Some(terms.authorityFrom.instant)
      ensures !ok ==> openingMonth == old(openingMonth) && authoritativeFrom == old(authoritativeFrom)
    {
      if !terms.Valid() { return false; }
      ok := openingMonth.None? && authoritativeFrom.None?;
      if ok {
        openingMonth, authoritativeFrom := Some(terms.period), Some(terms.authorityFrom.instant);
      }
    }
  }
}
