/**
 * When overlapping dispatches can exceed the daily success limit: success is counted when it is recorded
 * (record_success) and checked when a request is admitted (admit, intelligence/provider_budget_store.py).
 */
module BudgetOverlap {
  import opened Sequences
  import opened Budget

  predicate Marks(s: Step) { s.StartTransport? || s.Succeed? }

  ghost predicate OnlyMarks(steps: seq<Step>) { forall i :: 0 <= i < |steps| ==> Marks(steps[i]) }

  lemma {:induction false} RunAppend(l: Ledger, first: seq<Step>, second: seq<Step>)
    ensures Run(l, first + second) == Run(Run(l, first), second)
  {
    if second == [] {
      assert first + second == first;
    } else {
      RunAppend(l, first, second[..|second| - 1]);
      assert (first + second)[..|first + second| - 1] == first + second[..|second| - 1];
    }
  }

  /** Marking rows admits nothing. */
  lemma {:induction false} MarksKeepRequests(l: Ledger, steps: seq<Step>, d: int)
    requires OnlyMarks(steps)
    ensures Tally(OnDay(d), Run(l, steps).rows) == Tally(OnDay(d), l.rows)
  {
    if steps != [] {
      var prior := Run(l, steps[..|steps| - 1]);
      MarksKeepRequests(l, steps[..|steps| - 1], d);
      assert Marks(steps[|steps| - 1]);
      WeightsAreStable(d);
      MarkKeeps(OnDay(d), DayUsd(d), prior.rows, steps[|steps| - 1].request, steps[|steps| - 1].attempt,
                if steps[|steps| - 1].Succeed? then Completed else TransportStarted, steps[|steps| - 1].Succeed?);
    }
  }

  /** A success for each of the first `k` rows. */
  function SucceedFirst(rows: seq<Row>, k: nat): seq<Step>
    requires k <= |rows|
  {
    if k == 0 then [] else SucceedFirst(rows, k - 1) + [Succeed(rows[k - 1].request, rows[k - 1].attempt)]
  }

  lemma {:induction false} SucceedFirstMarks(rows: seq<Row>, k: nat)
    requires k <= |rows|
    ensures OnlyMarks(SucceedFirst(rows, k))
  {
    if k > 0 { SucceedFirstMarks(rows, k - 1); }
  }

  /** The same rows, of which the first `k` are successful. */
  ghost predicate SucceededTo(before: seq<Row>, after: seq<Row>, k: nat) {
    && |after| == |before|
    && (forall i :: 0 <= i < |before| ==>
          after[i].request == before[i].request && after[i].attempt == before[i].attempt && after[i].day == before[i].day)
    && (forall i :: 0 <= i < |before| && i < k ==> after[i].success)
  }

  /** Marking succeeds the named row and leaves every other success standing. */
  lemma {:induction false} MarkMarks(rows: seq<Row>, request: Id, attempt: int)
    ensures var marked := Mark(rows, request, attempt, Completed, true);
      && SucceededTo(rows, marked, 0)
      && forall i :: 0 <= i < |rows| ==> (marked[i].success <==>
           rows[i].success || (rows[i].request == request && rows[i].attempt == attempt))
  {
    if rows != [] { MarkMarks(rows[..|rows| - 1], request, attempt); }
  }

  lemma {:induction false} SucceedOne(before: seq<Row>, after: seq<Row>, k: nat)
    requires SucceededTo(before, after, k) && k < |before|
    ensures SucceededTo(before, Mark(after, before[k].request, before[k].attempt, Completed, true), k + 1)
  {
    MarkMarks(after, before[k].request, before[k].attempt);
  }

  lemma {:induction false} RunSnoc(l: Ledger, steps: seq<Step>, s: Step)
    ensures Run(l, steps + [s]) == Next(Run(l, steps), s)
  {
    assert (steps + [s])[..|steps + [s]| - 1] == steps;
  }

  lemma {:induction false} SucceedSome(l: Ledger, k: nat)
    requires k <= |l.rows|
    ensures SucceededTo(l.rows, Run(l, SucceedFirst(l.rows, k)).rows, k)
  {
    if k > 0 {
      SucceedSome(l, k - 1);
      RunSnoc(l, SucceedFirst(l.rows, k - 1), Succeed(l.rows[k - 1].request, l.rows[k - 1].attempt));
      SucceedOne(l.rows, Run(l, SucceedFirst(l.rows, k - 1)).rows, k - 1);
    }
  }

  lemma {:induction false} TallySame(w: Row -> int, v: Row -> int, a: seq<Row>, b: seq<Row>)
    requires |a| == |b| && forall i :: 0 <= i < |a| ==> w(a[i]) == v(b[i])
    ensures Tally(w, a) == Tally(v, b)
  {
    if a != [] { TallySame(w, v, a[..|a| - 1], b[..|b| - 1]); }
  }

  /** Every outstanding dispatch may still succeed: the day's successes can reach its requests. */
  lemma {:induction false} SuccessesReachRequests(l: Ledger, d: int)
    ensures OnlyMarks(SucceedFirst(l.rows, |l.rows|))
    ensures Tally(SuccessOn(d), Run(l, SucceedFirst(l.rows, |l.rows|)).rows) == Tally(OnDay(d), l.rows)
  {
    SucceedFirstMarks(l.rows, |l.rows|);
    SucceedSome(l, |l.rows|);
    TallySame(SuccessOn(d), OnDay(d), Run(l, SucceedFirst(l.rows, |l.rows|)).rows, l.rows);
  }

  ghost predicate RepliesStayWithin(l: Ledger, d: int, n: int) {
    forall steps :: OnlyMarks(steps) ==> Tally(SuccessOn(d), Run(l, steps).rows) <= n
  }

  /** From a ledger, replies alone keep a day's successes within `n` exactly when its requests are within `n`. */
  lemma {:induction false} RepliesStayWithinIff(l: Ledger, d: int, n: int)
    ensures RepliesStayWithin(l, d, n) <==> Tally(OnDay(d), l.rows) <= n
  {
    SuccessesReachRequests(l, d);
    forall steps | OnlyMarks(steps) ensures Tally(SuccessOn(d), Run(l, steps).rows) <= Tally(OnDay(d), l.rows) {
      RepliesStayWithinRequests(l, steps, d);
    }
  }

  lemma {:induction false} RepliesStayWithinRequests(l: Ledger, steps: seq<Step>, d: int)
    requires OnlyMarks(steps)
    ensures Tally(SuccessOn(d), Run(l, steps).rows) <= Tally(OnDay(d), l.rows)
  {
    MarksKeepRequests(l, steps, d);
    TallyBelow(SuccessOn(d), OnDay(d), Run(l, steps).rows);
  }

  /** `n` of the cheapest requests fit both spend limits in a month without carry-in. */
  predicate Affordable(config: Config, n: int) {
    && n as real * Estimate(config, 1) * config.usdToAud <= config.maxDailyAud
    && n as real * Estimate(config, 1) * config.usdToAud <= config.maxMonthlyAud
  }

  /** The configuration lets one more request in than it allows successes. */
  predicate Overlappable(config: Config) {
    0 < config.maxSuccesses < config.maxRequests && 0 <= config.maxRetries && Affordable(config, config.maxSuccesses + 1)
  }

  /** Admissions as a provider makes them: one configuration, at least one token, the day's own month. */
  predicate Issued(config: Config, monthOf: int -> int, s: Step) {
    s.Admit? ==> s.config == config && s.inputTokens >= 1 && s.at.month == monthOf(s.at.day)
  }

  ghost predicate AllIssued(config: Config, monthOf: int -> int, steps: seq<Step>) {
    forall i :: 0 <= i < |steps| ==> Issued(config, monthOf, steps[i])
  }

  /** No interleaving of issued steps ever exceeds the daily success limit. */
  ghost predicate SuccessesStayWithin(config: Config, monthOf: int -> int) {
    forall steps, d :: AllIssued(config, monthOf, steps) ==>
      Tally(SuccessOn(d), Run(EMPTY, steps).rows) <= Max(0, config.maxSuccesses)
  }

  /** What an issued run leaves in every row. */
  ghost predicate Priced(config: Config, monthOf: int -> int, rows: seq<Row>) {
    forall i :: 0 <= i < |rows| ==> rows[i].usd >= Estimate(config, 1) && rows[i].month == monthOf(rows[i].day)
  }

  lemma {:induction false} MarkKeepsPrices(
    config: Config, monthOf: int -> int, rows: seq<Row>, request: Id, attempt: int, state: RowState, success: bool)
    requires Priced(config, monthOf, rows)
    ensures Priced(config, monthOf, Mark(rows, request, attempt, state, success))
  {
    if rows != [] { MarkKeepsPrices(config, monthOf, rows[..|rows| - 1], request, attempt, state, success); }
  }

  lemma {:induction false} IssuedArePriced(config: Config, monthOf: int -> int, steps: seq<Step>)
    requires AllIssued(config, monthOf, steps)
    ensures Priced(config, monthOf, Run(EMPTY, steps).rows)
  {
    if steps != [] {
      var prior, s := Run(EMPTY, steps[..|steps| - 1]), steps[|steps| - 1];
      IssuedArePriced(config, monthOf, steps[..|steps| - 1]);
      assert Issued(config, monthOf, s);
      match s
      case StartTransport(request, attempt) =>
        MarkKeepsPrices(config, monthOf, prior.rows, request, attempt, TransportStarted, false);
      case Succeed(request, attempt) => MarkKeepsPrices(config, monthOf, prior.rows, request, attempt, Completed, true);
      case _ =>
    }
  }

  /** A day's spend is at least its requests at the cheapest price, and is part of its month's. */
  lemma {:induction false} SpendFollowsRequests(config: Config, monthOf: int -> int, rows: seq<Row>, d: int)
    requires Priced(config, monthOf, rows) && Estimate(config, 1) >= 0.0
    ensures Total(DayUsd(d), rows) >= Tally(OnDay(d), rows) as real * Estimate(config, 1)
    ensures Total(MonthUsd(monthOf(d)), rows) >= Total(DayUsd(d), rows)
  {
    if rows != [] { SpendFollowsRequests(config, monthOf, rows[..|rows| - 1], d); }
  }

  lemma {:induction false} ScaleMonotone(a: real, b: real, k: real)
    requires a <= b && 0.0 <= k
    ensures a * k <= b * k
  {
  }

  lemma {:induction false} SignOfProduct(a: real, k: real)
    requires 0.0 <= a && k <= 0.0
    ensures a * k <= 0.0
  {
  }

  /** The requests of a capped, priced day are affordable. */
  lemma {:induction false} RequestsAreAffordable(config: Config, monthOf: int -> int, l: Ledger, d: int, n: nat)
    requires config.Valid() && Priced(config, monthOf, l.rows) && Capped(l, config)
    requires 0 < n <= Tally(OnDay(d), l.rows)
    ensures Affordable(config, n)
  {
    var spent := n as real * Estimate(config, 1);
    DayWithinMonth(monthOf, config, l.rows, d);
    CappedSpend(config, l, d, monthOf(d));
    SpendFollowsRequests(config, monthOf, l.rows, d);
    ScaleMonotone(n as real, Tally(OnDay(d), l.rows) as real, Estimate(config, 1));
    ScaleMonotone(0.0, n as real, Estimate(config, 1));
    LessFitsToo(spent, Total(DayUsd(d), l.rows), config.usdToAud, config.maxDailyAud);
    LessFitsToo(spent, Total(MonthUsd(monthOf(d)), l.rows), config.usdToAud, config.maxMonthlyAud);
  }

  lemma {:induction false} CappedSpend(config: Config, l: Ledger, d: int, m: int)
    requires Capped(l, config) && Tally(OnDay(d), l.rows) > 0 && Tally(InMonth(m), l.rows) > 0
    ensures Total(DayUsd(d), l.rows) * config.usdToAud <= config.maxDailyAud
    ensures Total(MonthUsd(m), l.rows) * config.usdToAud <= config.maxMonthlyAud
  {
    assert DayCapped(l, config, d) && MonthCapped(l, config, m);
  }

  /** Spending less stays within a limit, whatever the sign of the rate. */
  lemma {:induction false} LessFitsToo(less: real, more: real, rate: real, limit: real)
    requires 0.0 <= less <= more && more * rate <= limit && 0.0 <= limit
    ensures less * rate <= limit
  {
    if rate >= 0.0 { ScaleMonotone(less, more, rate); } else { SignOfProduct(less, rate); }
  }

  lemma {:induction false} DayWithinMonth(monthOf: int -> int, config: Config, rows: seq<Row>, d: int)
    requires Priced(config, monthOf, rows)
    ensures Tally(OnDay(d), rows) <= Tally(InMonth(monthOf(d)), rows)
  {
    TallyBelowAt(OnDay(d), InMonth(monthOf(d)), rows);
  }

  lemma {:induction false} TallyBelowAt(w: Row -> int, v: Row -> int, rows: seq<Row>)
    requires forall i :: 0 <= i < |rows| ==> w(rows[i]) <= v(rows[i])
    ensures Tally(w, rows) <= Tally(v, rows)
  {
    if rows != [] { TallyBelowAt(w, v, rows[..|rows| - 1]); }
  }

  lemma {:induction false} TallyNonNegative(w: Row -> int, rows: seq<Row>)
    requires forall r :: w(r) >= 0
    ensures Tally(w, rows) >= 0
  {
    if rows != [] { TallyNonNegative(w, rows[..|rows| - 1]); }
  }

  /** Without a positive success limit, or with a negative retry limit, nothing is ever admitted. */
  lemma {:induction false} NothingAdmitted(config: Config, steps: seq<Step>)
    requires config.maxSuccesses <= 0 || config.maxRetries < 0
    requires forall s :: s in steps && s.Admit? ==> s.config == config
    ensures Run(EMPTY, steps).rows == []
  {
    if steps != [] {
      assert steps[|steps| - 1] in steps;
      NothingAdmitted(config, steps[..|steps| - 1]);
    }
  }

  /** A configuration that cannot overlap keeps the success limit under every interleaving. */
  lemma {:induction false} SuccessLimitHolds(config: Config, monthOf: int -> int, steps: seq<Step>, d: int)
    requires config.Valid() && !Overlappable(config) && AllIssued(config, monthOf, steps)
    ensures Tally(SuccessOn(d), Run(EMPTY, steps).rows) <= Max(0, config.maxSuccesses)
  {
    forall s | s in steps && s.Admit? ensures s.config == config { assert Issued(config, monthOf, s); }
    if config.maxSuccesses <= 0 || config.maxRetries < 0 {
      NothingAdmitted(config, steps);
    } else {
      var l := Run(EMPTY, steps);
      SuccessesWithinRequests(config, steps, d);
      CapsHold(config, steps);
      IssuedArePriced(config, monthOf, steps);
      if Tally(OnDay(d), l.rows) > config.maxSuccesses {
        RequestsAreAffordable(config, monthOf, l, d, config.maxSuccesses + 1);
      }
    }
  }

  /** The `i`-th cheapest first attempt of a day. */
  function Cheapest(config: Config, at: Moment, i: nat): Step { Admit(config, at, 1, false, i, 1, 0) }

  /** A ledger holding just the first `n` of those requests, none of them answered. */
  ghost predicate Holds(config: Config, at: Moment, l: Ledger, n: nat) {
    && l.authoritativeFrom == Some(at.instant) && l.openingMonth.Some? && l.openingMonth.value != at.month
    && (forall i :: 0 <= i < |l.rows| ==> l.rows[i].request < n)
    && Tally(OnDay(at.day), l.rows) == n && Tally(RetryOn(at.day), l.rows) == 0 && Tally(SuccessOn(at.day), l.rows) == 0
    && Total(DayUsd(at.day), l.rows) == n as real * Estimate(config, 1)
    && Total(MonthUsd(at.month), l.rows) == n as real * Estimate(config, 1)
  }

  lemma {:induction false} AffordableFewer(config: Config, m: nat, n: nat)
    requires config.Valid() && m <= n && Affordable(config, n)
    ensures Affordable(config, m)
  {
    var unit := Estimate(config, 1);
    ScaleMonotone(m as real, n as real, unit);
    ScaleMonotone(0.0, m as real, unit);
    LessFitsToo(m as real * unit, n as real * unit, config.usdToAud, config.maxDailyAud);
    LessFitsToo(m as real * unit, n as real * unit, config.usdToAud, config.maxMonthlyAud);
  }

  lemma {:induction false} HoldsOneMore(config: Config, at: Moment, l: Ledger, n: nat)
    requires Holds(config, at, l, n) && n < config.maxRequests && 0 < config.maxSuccesses && 0 <= config.maxRetries
    requires Affordable(config, n + 1)
    ensures Holds(config, at, Next(l, Cheapest(config, at, n)), n + 1)
  {
    var s := Cheapest(config, at, n);
    var unit := Estimate(config, 1);
    assert (n + 1) as real * unit == n as real * unit + unit;
    assert Admits(l, s);
    Snoc(OnDay(at.day), DayUsd(at.day), l.rows, NewRow(s));
    Snoc(RetryOn(at.day), MonthUsd(at.month), l.rows, NewRow(s));
    Snoc(SuccessOn(at.day), MonthUsd(at.month), l.rows, NewRow(s));
  }

  lemma {:induction false} AdmitMany(config: Config, monthOf: int -> int, at: Moment, n: nat) returns (steps: seq<Step>)
    requires config.Valid() && at.month == monthOf(at.day)
    requires n <= config.maxRequests && 0 < config.maxSuccesses && 0 <= config.maxRetries && Affordable(config, n)
    ensures AllIssued(config, monthOf, steps) && Holds(config, at, Run(EMPTY, steps), n)
  {
    if n == 0 {
      steps := [Open(at.month - 1, at.instant)];
      assert steps[..0] == [];
    } else {
      AffordableFewer(config, n - 1, n);
      var fewer := AdmitMany(config, monthOf, at, n - 1);
      HoldsOneMore(config, at, Run(EMPTY, fewer), n - 1);
      steps := fewer + [Cheapest(config, at, n - 1)];
      assert steps[..|steps| - 1] == fewer;
    }
  }

  /** A configuration that can overlap has, on any day, an interleaving with one success too many. */
  lemma {:induction false} OverlapExceedsSuccessLimit(config: Config, monthOf: int -> int, at: Moment) returns (steps: seq<Step>)
    requires config.Valid() && Overlappable(config) && at.month == monthOf(at.day)
    ensures AllIssued(config, monthOf, steps)
    ensures Tally(SuccessOn(at.day), Run(EMPTY, steps).rows) == config.maxSuccesses + 1
  {
    var admitted := AdmitMany(config, monthOf, at, config.maxSuccesses + 1);
    var l := Run(EMPTY, admitted);
    SuccessesReachRequests(l, at.day);
    RunAppend(EMPTY, admitted, SucceedFirst(l.rows, |l.rows|));
    steps := admitted + SucceedFirst(l.rows, |l.rows|);
  }

  /**
   * The daily success limit holds under every interleaving exactly when the configuration cannot overlap:
   * it allows no success, or no more requests than successes, or no retry bookkeeping at all, or its spend
   * limits do not pay for one request more than it allows successes.
   */
  lemma {:induction false} SuccessLimitHoldsIff(config: Config, monthOf: int -> int)
    requires config.Valid()
    ensures SuccessesStayWithin(config, monthOf) <==> !Overlappable(config)
  {
    if Overlappable(config) {
      var steps := OverlapExceedsSuccessLimit(config, monthOf, Moment(0, 0, monthOf(0)));
    } else {
      forall steps, d | AllIssued(config, monthOf, steps)
        ensures Tally(SuccessOn(d), Run(EMPTY, steps).rows) <= Max(0, config.maxSuccesses)
      {
        SuccessLimitHolds(config, monthOf, steps, d);
      }
    }
  }

  /** The default limits overlap. */
  lemma {:induction false} DefaultsOverlap()
    ensures Overlappable(Config(2, 1, 1, 2000, 2.0, 20.0, 1.6))
  {
  }
}
