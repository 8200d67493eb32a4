/**
 * The in-memory budget ledger (intelligence/openai_provider.py), which keeps running counters, against the
 * durable ledger's aggregate queries (intelligence/provider_budget_store.py).
 */
module PilotBudget {
  import opened Sequences
  import opened Budget
  import opened BudgetOverlap

  datatype DayTotals = DayTotals(requests: int, successes: int, retries: int, usd: real)

  const NO_ACTIVITY: DayTotals := DayTotals(0, 0, 0, 0.0)

  datatype Memory = Memory(daily: map<int, DayTotals>, monthly: map<int, real>)

  function Today(m: Memory, d: int): DayTotals { if d in m.daily then m.daily[d] else NO_ACTIVITY }

  function ThisMonth(m: Memory, month: int): real { if month in m.monthly then m.monthly[month] else 0.0 }

  predicate MemoryAdmits(m: Memory, s: Step)
    requires s.Admit?
  {
    var day := Today(m, s.at.day);
    var usd := Estimate(s.config, s.inputTokens);
    var aud := usd * s.config.usdToAud;
    && day.requests < s.config.maxRequests
    && day.successes < s.config.maxSuccesses
    && !(s.isRetry && day.retries >= s.config.maxRetries)
    && day.usd * s.config.usdToAud + aud <= s.config.maxDailyAud
    && ThisMonth(m, s.at.month) * s.config.usdToAud + aud <= s.config.maxMonthlyAud
  }

  /** The counters after an admission attempt; a refusal still creates the day's zero entry. */
  function MemoryAdmit(m: Memory, s: Step): Memory
    requires s.Admit?
  {
    var day := Today(m, s.at.day);
    var usd := Estimate(s.config, s.inputTokens);
    if MemoryAdmits(m, s) then
      Memory(
        m.daily[s.at.day := DayTotals(
          day.requests + 1, day.successes, day.retries + (if s.isRetry then 1 else 0), day.usd + usd)],
        m.monthly[s.at.month := ThisMonth(m, s.at.month) + usd])
    else m.(daily := m.daily[s.at.day := day])
  }

  function MemorySucceed(m: Memory, d: int): Memory {
    var day := Today(m, d);
    m.(daily := m.daily[d := day.(successes := day.successes + 1)])
  }

  // ----- Running counters refine the aggregate queries -----

  function DaySums(rows: seq<Row>, d: int): DayTotals {
    DayTotals(Tally(OnDay(d), rows), Tally(SuccessOn(d), rows), Tally(RetryOn(d), rows), Total(DayUsd(d), rows))
  }

  ghost predicate Agree(rows: seq<Row>, m: Memory) {
    && (forall d :: Today(m, d) == DaySums(rows, d))
    && (forall month :: ThisMonth(m, month) == Total(MonthUsd(month), rows))
  }

  /** After cutover, outside the opening month, with a key not yet reserved. */
  ghost predicate Comparable(l: Ledger, s: Step) {
    && s.Admit? && l.openingMonth.Some? && l.openingMonth.value != s.at.month
    && l.authoritativeFrom.Some? && s.at.instant >= l.authoritativeFrom.value
    && !IsReserved(l.rows, s.request, s.attempt)
  }

  /** The durable ledger also holds a first attempt to the retry allowance; otherwise the verdicts are one. */
  lemma {:induction false} DurableAdmitsIff(l: Ledger, m: Memory, s: Step)
    requires Comparable(l, s) && Agree(l.rows, m)
    ensures Admits(l, s) <==>
      MemoryAdmits(m, s) && (s.isRetry || Tally(RetryOn(s.at.day), l.rows) <= s.config.maxRetries)
  {
    var usd, rate := Estimate(s.config, s.inputTokens), s.config.usdToAud;
    var day, month := Total(DayUsd(s.at.day), l.rows), Total(MonthUsd(s.at.month), l.rows);
    assert (day + usd) * rate == day * rate + usd * rate;
    assert (month + usd) * rate == month * rate + usd * rate;
  }

  datatype Op = TryAdmit(step: Step) | Success(request: Id, attempt: int, day: int)

  ghost predicate DistinctKeys(rows: seq<Row>) {
    forall i, j :: 0 <= i < j < |rows| ==> (rows[i].request, rows[i].attempt) != (rows[j].request, rows[j].attempt)
  }

  /** The row a success is recorded for: admitted that day, not yet successful. */
  ghost predicate Pending(rows: seq<Row>, request: Id, attempt: int, day: int) {
    exists i :: 0 <= i < |rows| && rows[i].request == request && rows[i].attempt == attempt
             && rows[i].day == day && !rows[i].success
  }

  function DurableAfter(l: Ledger, op: Op): Ledger {
    match op
    case TryAdmit(s) => Next(l, s)
    case Success(request, attempt, _) => Next(l, Succeed(request, attempt))
  }

  function MemoryAfter(m: Memory, op: Op): Memory
    requires op.TryAdmit? ==> op.step.Admit?
  {
    match op
    case TryAdmit(s) => MemoryAdmit(m, s)
    case Success(_, _, day) => MemorySucceed(m, day)
  }

  /** Operations a provider performs: comparable admissions and one success per pending row. */
  ghost predicate Plausible(config: Config, l: Ledger, op: Op) {
    match op
    case TryAdmit(s) => Comparable(l, s) && s.config == config
    case Success(request, attempt, day) => Pending(l.rows, request, attempt, day)
  }

  ghost predicate PlausibleRun(config: Config, l: Ledger, ops: seq<Op>)
    decreases |ops|
  {
    ops == [] || (Plausible(config, l, ops[0]) && PlausibleRun(config, DurableAfter(l, ops[0]), ops[1..]))
  }

  /** Both ledgers give the same verdict at every admission of the run. */
  ghost predicate SameVerdicts(l: Ledger, m: Memory, ops: seq<Op>)
    decreases |ops|
  {
    ops == [] || (
      && (ops[0].TryAdmit? ==> ops[0].step.Admit? && (Admits(l, ops[0].step) <==> MemoryAdmits(m, ops[0].step)))
      && SameVerdicts(DurableAfter(l, ops[0]), MemoryAfter(m, ops[0]), ops[1..]))
  }

  lemma {:induction false} DaySumsSnoc(rows: seq<Row>, r: Row, d: int)
    ensures var before, after := DaySums(rows, d), DaySums(rows + [r], d);
      after == if r.day != d then before else DayTotals(
        before.requests + 1, before.successes + (if r.success then 1 else 0),
        before.retries + (if r.isRetry then 1 else 0), before.usd + r.usd)
  {
    Snoc(OnDay(d), DayUsd(d), rows, r);
    Snoc(SuccessOn(d), DayUsd(d), rows, r);
    Snoc(RetryOn(d), DayUsd(d), rows, r);
  }

  lemma {:induction false} AdmitAgrees(l: Ledger, m: Memory, s: Step)
    requires Comparable(l, s) && Agree(l.rows, m) && (Admits(l, s) <==> MemoryAdmits(m, s))
    ensures Agree(Next(l, s).rows, MemoryAdmit(m, s))
  {
    if Admits(l, s) {
      forall d ensures Today(MemoryAdmit(m, s), d) == DaySums(l.rows + [NewRow(s)], d) {
        DaySumsSnoc(l.rows, NewRow(s), d);
        assert Today(m, d) == DaySums(l.rows, d);
      }
      forall month ensures ThisMonth(MemoryAdmit(m, s), month) == Total(MonthUsd(month), l.rows + [NewRow(s)]) {
        Snoc(InMonth(month), MonthUsd(month), l.rows, NewRow(s));
        assert ThisMonth(m, month) == Total(MonthUsd(month), l.rows);
      }
    } else {
      assert forall d :: Today(MemoryAdmit(m, s), d) == Today(m, d);
    }
  }

  lemma {:induction false} LastKeyIsNew(rows: seq<Row>)
    requires DistinctKeys(rows) && rows != []
    ensures !IsReserved(rows[..|rows| - 1], rows[|rows| - 1].request, rows[|rows| - 1].attempt)
  {
  }

  lemma {:induction false} MarkSnoc(rows: seq<Row>, last: Row, request: Id, attempt: int, d: int)
    ensures var after := if last.request == request && last.attempt == attempt
                         then last.(state := Completed, success := true) else last;
      Tally(SuccessOn(d), Mark(rows + [last], request, attempt, Completed, true))
        == Tally(SuccessOn(d), Mark(rows, request, attempt, Completed, true)) + SuccessOn(d)(after)
  {
    var after := if last.request == request && last.attempt == attempt
                 then last.(state := Completed, success := true) else last;
    assert (rows + [last])[..|rows|] == rows;
    Snoc(SuccessOn(d), DayUsd(d), Mark(rows, request, attempt, Completed, true), after);
  }

  /** Recording the success of a pending row raises that day's count by one and no other. */
  lemma {:induction false} MarkPending(rows: seq<Row>, request: Id, attempt: int, day: int, d: int)
    requires DistinctKeys(rows) && Pending(rows, request, attempt, day)
    ensures Tally(SuccessOn(d), Mark(rows, request, attempt, Completed, true))
         == Tally(SuccessOn(d), rows) + (if d == day then 1 else 0)
  {
    var init, last := rows[..|rows| - 1], rows[|rows| - 1];
    assert rows == init + [last];
    MarkSnoc(init, last, request, attempt, d);
    if last.request == request && last.attempt == attempt {
      LastKeyIsNew(rows);
      MarkAbsent(init, request, attempt, Completed, true);
    } else {
      PendingEarlier(rows, request, attempt, day);
      MarkPending(init, request, attempt, day, d);
    }
  }

  lemma {:induction false} PendingEarlier(rows: seq<Row>, request: Id, attempt: int, day: int)
    requires DistinctKeys(rows) && Pending(rows, request, attempt, day)
    requires rows[|rows| - 1].request != request || rows[|rows| - 1].attempt != attempt
    ensures Pending(rows[..|rows| - 1], request, attempt, day) && DistinctKeys(rows[..|rows| - 1])
  {
    var i :| 0 <= i < |rows| && rows[i].request == request && rows[i].attempt == attempt
             && rows[i].day == day && !rows[i].success;
    assert rows[..|rows| - 1][i] == rows[i];
  }

  lemma {:induction false} SuccessAgrees(rows: seq<Row>, m: Memory, request: Id, attempt: int, day: int)
    requires DistinctKeys(rows) && Pending(rows, request, attempt, day) && Agree(rows, m)
    ensures Agree(Mark(rows, request, attempt, Completed, true), MemorySucceed(m, day))
  {
    var rows' := Mark(rows, request, attempt, Completed, true);
    forall d ensures Today(MemorySucceed(m, day), d) == DaySums(rows', d) {
      WeightsAreStable(d);
      MarkKeeps(OnDay(d), DayUsd(d), rows, request, attempt, Completed, true);
      MarkKeeps(RetryOn(d), DayUsd(d), rows, request, attempt, Completed, true);
      MarkPending(rows, request, attempt, day, d);
      assert Today(m, d) == DaySums(rows, d);
    }
    forall month ensures ThisMonth(MemorySucceed(m, day), month) == Total(MonthUsd(month), rows') {
      WeightsAreStable(month);
      MarkKeeps(InMonth(month), MonthUsd(month), rows, request, attempt, Completed, true);
    }
  }

  lemma {:induction false} MarkKeepsKeys(rows: seq<Row>, request: Id, attempt: int, state: RowState, success: bool)
    ensures var marked := Mark(rows, request, attempt, state, success);
      |marked| == |rows| && forall i :: 0 <= i < |rows| ==>
        marked[i].request == rows[i].request && marked[i].attempt == rows[i].attempt
  {
    if rows != [] {
      MarkKeepsKeys(rows[..|rows| - 1], request, attempt, state, success);
    }
  }

  lemma {:induction false} MarkKeepsDistinct(rows: seq<Row>, request: Id, attempt: int, state: RowState, success: bool)
    requires DistinctKeys(rows)
    ensures DistinctKeys(Mark(rows, request, attempt, state, success))
  {
    MarkKeepsKeys(rows, request, attempt, state, success);
  }

  /** The two ledgers stand for the same activity, within the configuration's caps. */
  ghost predicate InStep(config: Config, l: Ledger, m: Memory) {
    Capped(l, config) && DistinctKeys(l.rows) && Agree(l.rows, m)
  }

  lemma {:induction false} AdmissionStaysInStep(config: Config, l: Ledger, m: Memory, s: Step)
    requires config.maxRetries >= 0 && InStep(config, l, m) && Comparable(l, s) && s.config == config
    ensures (Admits(l, s) <==> MemoryAdmits(m, s)) && InStep(config, Next(l, s), MemoryAdmit(m, s))
  {
    assert DayCapped(l, config, s.at.day);
    DurableAdmitsIff(l, m, s);
    AdmitAgrees(l, m, s);
    StepKeepsCaps(l, config, s);
    AdmissionKeepsKeys(l, s);
  }

  lemma {:induction false} AdmissionKeepsKeys(l: Ledger, s: Step)
    requires DistinctKeys(l.rows) && Comparable(l, s)
    ensures DistinctKeys(Next(l, s).rows)
  {
    assert forall i :: 0 <= i < |l.rows| ==> l.rows[i] in l.rows;
  }

  lemma {:induction false} SuccessStaysInStep(config: Config, l: Ledger, m: Memory, request: Id, attempt: int, day: int)
    requires InStep(config, l, m) && Pending(l.rows, request, attempt, day)
    ensures InStep(config, Next(l, Succeed(request, attempt)), MemorySucceed(m, day))
  {
    SuccessAgrees(l.rows, m, request, attempt, day);
    MarkKeepsDistinct(l.rows, request, attempt, Completed, true);
    StepKeepsCaps(l, config, Succeed(request, attempt));
  }

  /** With a non-negative retry allowance the ledgers agree on every plausible run. */
  lemma {:induction false} LedgersAgree(config: Config, l: Ledger, m: Memory, ops: seq<Op>)
    requires config.maxRetries >= 0 && InStep(config, l, m) && PlausibleRun(config, l, ops)
    ensures SameVerdicts(l, m, ops)
    decreases |ops|
  {
    if ops != [] {
      match ops[0] {
        case TryAdmit(s) => AdmissionStaysInStep(config, l, m, s);
        case Success(request, attempt, day) => SuccessStaysInStep(config, l, m, request, attempt, day);
      }
      LedgersAgree(config, DurableAfter(l, ops[0]), MemoryAfter(m, ops[0]), ops[1..]);
    }
  }

  // ----- Exactly when the ledgers agree -----

  const NO_MEMORY: Memory := Memory(map[], map[])

  /** An opening balance is stored, and nothing is reserved yet. */
  predicate Opened(l: Ledger) { l.rows == [] && l.openingMonth.Some? && l.authoritativeFrom.Some? }

  /** The limits other than the retry allowance let a first attempt in. */
  predicate FirstAttemptFits(config: Config) {
    0 < config.maxRequests && 0 < config.maxSuccesses && Affordable(config, 1)
  }

  /** Every admission asks for at least one input token, as the provider computes it. */
  ghost predicate Charged(ops: seq<Op>) {
    forall i :: 0 <= i < |ops| && ops[i].TryAdmit? ==> ops[i].step.Admit? && ops[i].step.inputTokens >= 1
  }

  ghost predicate AlwaysAgree(config: Config, l: Ledger) {
    forall ops :: PlausibleRun(config, l, ops) && Charged(ops) ==> SameVerdicts(l, NO_MEMORY, ops)
  }

  /** A negative retry allowance separates the ledgers at once, when a first attempt fits the other limits. */
  lemma {:induction false} NegativeAllowanceSeparates(config: Config, l: Ledger) returns (s: Step)
    requires config.Valid() && Opened(l) && config.maxRetries < 0 && FirstAttemptFits(config)
    ensures Comparable(l, s) && s.config == config && s.inputTokens >= 1
    ensures MemoryAdmits(NO_MEMORY, s) && !Admits(l, s)
  {
    s := Admit(config, Moment(l.authoritativeFrom.value, 0, l.openingMonth.value + 1), 1, false, 1, 1, 0);
  }

  /** When no first attempt fits, neither ledger ever admits anything. */
  lemma {:induction false} NeitherAdmits(config: Config, l: Ledger, m: Memory, ops: seq<Op>)
    requires config.Valid() && config.maxRetries < 0 && !FirstAttemptFits(config)
    requires Opened(l) && Agree([], m) && PlausibleRun(config, l, ops) && Charged(ops)
    ensures SameVerdicts(l, m, ops)
    decreases |ops|
  {
    if ops != [] && ops[0].TryAdmit? {
      var s := ops[0].step;
      assert Today(m, s.at.day) == DaySums([], s.at.day) && ThisMonth(m, s.at.month) == Total(MonthUsd(s.at.month), []);
      if MemoryAdmits(m, s) {
        var unit, usd := Estimate(config, 1), Estimate(config, s.inputTokens);
        LessFitsToo(unit, usd, config.usdToAud, config.maxDailyAud);
        LessFitsToo(unit, usd, config.usdToAud, config.maxMonthlyAud);
      }
      AdmitAgrees(l, m, s);
      NeitherAdmits(config, Next(l, s), MemoryAdmit(m, s), ops[1..]);
    }
  }

  lemma {:induction false} OneAdmission(config: Config, l: Ledger, s: Step)
    requires Comparable(l, s) && s.config == config && s.inputTokens >= 1
    ensures var ops := [TryAdmit(s)];
      && PlausibleRun(config, l, ops) && Charged(ops)
      && (SameVerdicts(l, NO_MEMORY, ops) ==> (Admits(l, s) <==> MemoryAdmits(NO_MEMORY, s)))
  {
    var ops := [TryAdmit(s)];
    assert ops[0] == TryAdmit(s) && ops[1..] == [];
    assert Plausible(config, l, ops[0]);
    assert PlausibleRun(config, DurableAfter(l, ops[0]), ops[1..]);
  }

  lemma {:induction false} NothingIsCapped(l: Ledger, config: Config)
    requires Opened(l)
    ensures InStep(config, l, NO_MEMORY)
  {
  }

  /**
   * From an opened ledger the two ledgers give the same verdicts on every plausible run exactly when the
   * retry allowance is not negative, or no first attempt fits the other limits.
   */
  lemma {:induction false} LedgersAgreeIff(config: Config, l: Ledger)
    requires config.Valid() && Opened(l)
    ensures AlwaysAgree(config, l) <==> config.maxRetries >= 0 || !FirstAttemptFits(config)
  {
    NothingIsCapped(l, config);
    if config.maxRetries < 0 && FirstAttemptFits(config) {
      var s := NegativeAllowanceSeparates(config, l);
      OneAdmission(config, l, s);
    } else {
      forall ops | PlausibleRun(config, l, ops) && Charged(ops) ensures SameVerdicts(l, NO_MEMORY, ops) {
        if config.maxRetries >= 0 { LedgersAgree(config, l, NO_MEMORY, ops); } else { NeitherAdmits(config, l, NO_MEMORY, ops); }
      }
    }
  }

  // ----- The ledger as an object -----

  class PilotLedger {
    var daily: map<int, DayTotals>
    var monthly: map<int, real>

    function State(): Memory
      reads this
    {
      Memory(daily, monthly)
    }

    constructor ()
      ensures State() == Memory(map[], map[])
    {
      daily, monthly := map[], map[];
    }

    method TryAdmit(config: Config, at: Moment, inputTokens: int, isRetry: bool) returns (usd: Option<real>)
      modifies this
      ensures var s := Admit(config, at, inputTokens, isRetry, 0, 1, 0);
        && State() == MemoryAdmit(old(State()), s)
        && usd == (if MemoryAdmits(old(State()), s) then Some(Estimate(config, inputTokens)) else None)
      ensures usd.Some? ==> usd.value == Price(config, inputTokens)
      ensures var day, spent := Today(old(State()), at.day), ThisMonth(old(State()), at.month);
        if usd.None? then daily == old(daily)[at.day := day] && monthly == old(monthly)
        else
          && daily == old(daily)[at.day := DayTotals(
               day.requests + 1, day.successes, day.retries + (if isRetry then 1 else 0), day.usd + usd.value)]
          && monthly == old(monthly)[at.month := spent + usd.value]
      ensures var day, spent := Today(old(State()), at.day), ThisMonth(old(State()), at.month);
        usd.None? <==>
          || config.maxRequests <= day.requests || config.maxSuccesses <= day.successes
          || (isRetry && config.maxRetries <= day.retries)
          || config.maxDailyAud < day.usd * config.usdToAud + Price(config, inputTokens) * config.usdToAud
          || config.maxMonthlyAud < spent * config.usdToAud + Price(config, inputTokens) * config.usdToAud
    {
      TariffHolds(config, inputTokens);
      if at.day !in daily {
        daily := daily[at.day := NO_ACTIVITY];
      }
      var day := daily[at.day];
      var estimated := Estimate(config, inputTokens);
      var aud := estimated * config.usdToAud;
      var month := ThisMonth(State(), at.month);
      if || day.requests >= config.maxRequests
         || day.successes >= config.maxSuccesses
         || (isRetry && day.retries >= config.maxRetries)
         || day.usd * config.usdToAud + aud > config.maxDailyAud
         || month * config.usdToAud + aud > config.maxMonthlyAud
      {
        return None;
      }
      day := day.(requests := day.requests + 1, usd := day.usd + estimated);
      if isRetry {
        day := day.(retries := day.retries + 1);
      }
      daily, monthly := daily[at.day := day], monthly[at.month := month + estimated];
      usd := Some(estimated);
    }

    method RecordSuccess(day: int)
      modifies this
      ensures State() == MemorySucceed(old(State()), day)
      ensures monthly == old(monthly)
      ensures var before := Today(old(State()), day); daily == old(daily)[day := before.(successes := before.successes + 1)]
    {
      if day !in daily {
        daily := daily[day := NO_ACTIVITY];
      }
      daily := daily[day := daily[day].(successes := daily[day].successes + 1)];
    }
  }
}
