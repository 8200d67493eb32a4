/**
 * The daily scheduler of intelligence/operations.py. Slots are local day numbers; a slot is due at its
 * local time. A call is a list of transactions, and may crash after any of them; calls do not overlap
 * here (SchedulerRace treats overlapping ones).
 */
module Scheduler {
  import opened Sequences

  type Slot = int
  type Instant = int

  const DAY: int := 86400

  datatype Status = Running | Completed | CompletedWithGaps | Failed | Missed

  predicate Succeeded(s: Status) { s == Completed || s == CompletedWithGaps }

  datatype DailyRun = DailyRun(
    slot: Slot, attempt: int, status: Status, startedAt: Option<Instant>, completedAt: Option<Instant>, retrySafe: bool)

  datatype Schedule = Schedule(next: Slot, lastAttempted: Option<Instant>, lastSuccessful: Option<Instant>)
  {
    function Advance(after: Slot): Schedule { this.(next := after + 1) }
  }

  datatype State = State(schedule: Option<Schedule>, runs: map<Slot, DailyRun>)

  const EMPTY: State := State(None, map[])

  /** What the brief runner does. */
  datatype Reply = Delivers(gaps: bool) | Throws

  function Due(localTime: int, slot: Slot): Instant { slot * DAY + localTime }

  /** Today's slot, or tomorrow's once today's time has come. */
  function FirstSlot(localTime: int, now: Instant): Slot {
    var today := now / DAY;
    if Due(localTime, today) <= now then today + 1 else today
  }

  function Initialised(s: State, localTime: int, now: Instant): (r: State)
    ensures r.schedule.Some?
  {
    if s.schedule.Some? then s else s.(schedule := Some(Schedule(FirstSlot(localTime, now), None, None)))
  }

  function Started(slot: Slot, now: Instant): DailyRun { DailyRun(slot, 1, Running, Some(now), None, false) }

  function Finished(run: DailyRun, reply: Reply, now: Instant): DailyRun {
    match reply
    case Delivers(gaps) => run.(status := if gaps then CompletedWithGaps else Completed, completedAt := Some(now))
    case Throws => run.(status := Failed, completedAt := Some(now), retrySafe := true)
  }

  function MissedRun(slot: Slot, now: Instant): DailyRun { DailyRun(slot, 1, Missed, None, Some(now), true) }

  function Retried(run: DailyRun, now: Instant): DailyRun {
    run.(status := Running, attempt := run.attempt + 1, startedAt := Some(now), completedAt := None)
  }

  function WithRun(s: State, run: DailyRun): State { s.(runs := s.runs[run.slot := run]) }

  function WithSchedule(s: State, schedule: Schedule): State { s.(schedule := Some(schedule)) }

  // ----- Calls: the state before, and after each transaction -----

  /** A claimed run: note the attempt, call the runner, save the run and, on success, move the schedule on. */
  function Attempted(s: State, run: DailyRun, reply: Reply, now: Instant): seq<State>
    requires s.schedule.Some?
  {
    var noted := WithSchedule(s, s.schedule.value.(lastAttempted := Some(now)));
    var saved := WithRun(noted, Finished(run, reply, now));
    if reply.Throws? then [s, noted, saved]
    else [s, noted, saved,
          WithSchedule(saved, noted.schedule.value.(lastSuccessful := Some(now)).Advance(run.slot))]
  }

  function TickEffects(s: State, localTime: int, now: Instant, reply: Reply): seq<State> {
    var ready := Initialised(s, localTime, now);
    var schedule := ready.schedule.value;
    if now < Due(localTime, schedule.next) then [s, ready]
    else if schedule.next in ready.runs then
      var existing := ready.runs[schedule.next];
      if Succeeded(existing.status)
      then [s, ready, WithSchedule(ready, schedule.(lastSuccessful := existing.completedAt).Advance(schedule.next))]
      else [s, ready]
    else
      var run := Started(schedule.next, now);
      [s, ready] + Attempted(WithRun(ready, run), run, reply, now)
  }

  function RetryEffects(s: State, slot: Slot, now: Instant, reply: Reply): seq<State> {
    if slot !in s.runs || s.runs[slot].status != Failed || !s.runs[slot].retrySafe || s.schedule.None? then [s]
    else
      var run := Retried(s.runs[slot], now);
      [s] + Attempted(WithRun(s, run), run, reply, now)
  }

  function MissedEffects(s: State, localTime: int, now: Instant): seq<State> {
    var ready := Initialised(s, localTime, now);
    var schedule := ready.schedule.value;
    if now < Due(localTime, schedule.next) || schedule.next in ready.runs then [s, ready]
    else
      var claimed := WithRun(ready, MissedRun(schedule.next, now));
      [s, ready, claimed, WithSchedule(claimed, schedule.Advance(schedule.next))]
  }

  function Recover(s: State, slot: Slot, now: Instant): seq<State> {
    if slot !in s.runs || s.runs[slot].status != Running then [s]
    else [s, WithRun(s, s.runs[slot].(status := Failed, completedAt := Some(now), retrySafe := true))]
  }

  datatype Call =
    | DoTick(now: Instant, reply: Reply)
    | DoRetry(slot: Slot, now: Instant, reply: Reply)
    | DoMarkMissed(now: Instant)
    | DoRecover(slot: Slot, now: Instant)

  function Effects(s: State, localTime: int, call: Call): (r: seq<State>)
    ensures r != [] && r[0] == s
  {
    match call
    case DoTick(now, reply) => TickEffects(s, localTime, now, reply)
    case DoRetry(slot, now, reply) => RetryEffects(s, slot, now, reply)
    case DoMarkMissed(now) => MissedEffects(s, localTime, now)
    case DoRecover(slot, now) => Recover(s, slot, now)
  }

  /** A call, and after how many of its transactions the process stops. */
  datatype Turn = Turn(call: Call, survives: nat)

  function Apply(s: State, localTime: int, turn: Turn): State {
    var effects := Effects(s, localTime, turn.call);
    effects[Min(turn.survives, |effects| - 1)]
  }

  function Run(localTime: int, turns: seq<Turn>): State {
    if turns == [] then EMPTY else Apply(Run(localTime, turns[..|turns| - 1]), localTime, turns[|turns| - 1])
  }

  // ----- The slots -----

  predicate Settled(s: Status) { Succeeded(s) || s == Missed }

  /** One run per slot, without gaps, all settled before the next expected slot and none after it. */
  ghost predicate Orderly(s: State) {
    if s.schedule.None? then s.runs == map[]
    else
      var next := s.schedule.value.next;
      && (forall d :: d in s.runs ==> d <= next && s.runs[d].slot == d && 1 <= s.runs[d].attempt)
      && (forall d :: d in s.runs && d < next ==> Settled(s.runs[d].status))
      && (forall d, e :: d in s.runs && d <= e < next ==> e in s.runs)
      && (next in s.runs && s.runs[next].status == Failed ==> s.runs[next].retrySafe)
  }

  ghost predicate AllOrderly(states: seq<State>) { forall i :: 0 <= i < |states| ==> Orderly(states[i]) }

  /** Writing the run of the next expected slot keeps order. */
  lemma {:induction false} WithRunOrderly(s: State, run: DailyRun)
    requires Orderly(s) && s.schedule.Some? && run.slot == s.schedule.value.next
    requires 1 <= run.attempt && (run.status == Failed ==> run.retrySafe)
    ensures Orderly(WithRun(s, run))
  {
  }

  /** The schedule may note times freely, and may pass a slot once that slot is settled. */
  lemma {:induction false} WithScheduleOrderly(s: State, schedule: Schedule)
    requires Orderly(s) && s.schedule.Some?
    requires var next := s.schedule.value.next;
      schedule.next == next || (schedule.next == next + 1 && next in s.runs && Settled(s.runs[next].status))
    ensures Orderly(WithSchedule(s, schedule))
  {
  }

  lemma {:induction false} AttemptedOrderly(s: State, run: DailyRun, reply: Reply, now: Instant)
    requires Orderly(s) && s.schedule.Some? && run.slot == s.schedule.value.next && 1 <= run.attempt
    ensures AllOrderly(Attempted(s, run, reply, now))
  {
    var noted := WithSchedule(s, s.schedule.value.(lastAttempted := Some(now)));
    WithScheduleOrderly(s, noted.schedule.value);
    var saved := WithRun(noted, Finished(run, reply, now));
    WithRunOrderly(noted, Finished(run, reply, now));
    if reply.Delivers? {
      WithScheduleOrderly(saved, noted.schedule.value.(lastSuccessful := Some(now)).Advance(run.slot));
    }
  }

  lemma {:induction false} TickOrderly(s: State, localTime: int, now: Instant, reply: Reply)
    requires Orderly(s)
    ensures AllOrderly(TickEffects(s, localTime, now, reply))
  {
    var ready := Initialised(s, localTime, now);
    var schedule := ready.schedule.value;
    assert Orderly(ready);
    if now >= Due(localTime, schedule.next) {
      if schedule.next !in ready.runs {
        var run := Started(schedule.next, now);
        WithRunOrderly(ready, run);
        AttemptedOrderly(WithRun(ready, run), run, reply, now);
      } else if Succeeded(ready.runs[schedule.next].status) {
        WithScheduleOrderly(
          ready, schedule.(lastSuccessful := ready.runs[schedule.next].completedAt).Advance(schedule.next));
      }
    }
  }

  lemma {:induction false} RetryOrderly(s: State, slot: Slot, now: Instant, reply: Reply)
    requires Orderly(s)
    ensures AllOrderly(RetryEffects(s, slot, now, reply))
  {
    if slot in s.runs && s.runs[slot].status == Failed && s.runs[slot].retrySafe && s.schedule.Some? {
      var run := Retried(s.runs[slot], now);
      WithRunOrderly(s, run);
      AttemptedOrderly(WithRun(s, run), run, reply, now);
    }
  }

  lemma {:induction false} MarkMissedOrderly(s: State, localTime: int, now: Instant)
    requires Orderly(s)
    ensures AllOrderly(MissedEffects(s, localTime, now))
  {
    var ready := Initialised(s, localTime, now);
    var schedule := ready.schedule.value;
    assert Orderly(ready);
    if now >= Due(localTime, schedule.next) && schedule.next !in ready.runs {
      WithRunOrderly(ready, MissedRun(schedule.next, now));
      WithScheduleOrderly(WithRun(ready, MissedRun(schedule.next, now)), schedule.Advance(schedule.next));
    }
  }

  lemma {:induction false} RecoverOrderly(s: State, slot: Slot, now: Instant)
    requires Orderly(s)
    ensures AllOrderly(Recover(s, slot, now))
  {
    if slot in s.runs && s.runs[slot].status == Running {
      WithRunOrderly(s, s.runs[slot].(status := Failed, completedAt := Some(now), retrySafe := true));
    }
  }

  lemma {:induction false} ApplyOrderly(s: State, localTime: int, turn: Turn)
    requires Orderly(s)
    ensures Orderly(Apply(s, localTime, turn))
  {
    match turn.call
    case DoTick(now, reply) => TickOrderly(s, localTime, now, reply);
    case DoRetry(slot, now, reply) => RetryOrderly(s, slot, now, reply);
    case DoMarkMissed(now) => MarkMissedOrderly(s, localTime, now);
    case DoRecover(slot, now) => RecoverOrderly(s, slot, now);
  }

  lemma {:induction false} ReachableOrderly(localTime: int, turns: seq<Turn>)
    ensures Orderly(Run(localTime, turns))
  {
    if turns != [] {
      ReachableOrderly(localTime, turns[..|turns| - 1]);
      ApplyOrderly(Run(localTime, turns[..|turns| - 1]), localTime, turns[|turns| - 1]);
    }
  }

  /**
   * Under any calls and crashes: recorded slots run without a gap up to the next expected slot, earlier
   * ones completed or missed, and a run that is running or failed sits exactly at the next expected slot.
   */
  lemma {:induction false} SlotsAreConsecutive(localTime: int, turns: seq<Turn>)
    ensures var s := Run(localTime, turns);
      && (s.schedule.None? ==> s.runs == map[])
      && (forall d :: d in s.runs ==> s.schedule.Some? && d <= s.schedule.value.next && s.runs[d].slot == d)
      && (forall d, e :: d in s.runs && d <= e < s.schedule.value.next ==> e in s.runs && Settled(s.runs[e].status))
      && (forall d :: d in s.runs && s.runs[d].status in {Running, Failed} ==> d == s.schedule.value.next)
  {
    ReachableOrderly(localTime, turns);
  }

  // ----- Progress never goes backwards -----

  /** The schedule moves on by at most one slot, and the runs it has passed stay as they are. */
  ghost predicate Onward(s: State, t: State) {
    s.schedule.Some? ==>
      && t.schedule.Some? && s.schedule.value.next <= t.schedule.value.next <= s.schedule.value.next + 1
      && forall d :: d in s.runs && d < s.schedule.value.next ==> d in t.runs && t.runs[d] == s.runs[d]
  }

  lemma {:induction false} AttemptedOnward(s: State, run: DailyRun, reply: Reply, now: Instant, i: nat)
    requires s.schedule.Some? && run.slot == s.schedule.value.next && i < |Attempted(s, run, reply, now)|
    ensures Onward(s, Attempted(s, run, reply, now)[i])
  {
  }

  lemma {:induction false} TickOnward(s: State, localTime: int, now: Instant, reply: Reply, i: nat)
    requires Orderly(s) && i < |TickEffects(s, localTime, now, reply)|
    ensures Onward(s, TickEffects(s, localTime, now, reply)[i])
  {
    var ready := Initialised(s, localTime, now);
    var schedule := ready.schedule.value;
    if now >= Due(localTime, schedule.next) && schedule.next !in ready.runs && i >= 2 {
      var run := Started(schedule.next, now);
      AttemptedOnward(WithRun(ready, run), run, reply, now, i - 2);
    }
  }

  lemma {:induction false} RetryOnward(s: State, slot: Slot, now: Instant, reply: Reply, i: nat)
    requires Orderly(s) && i < |RetryEffects(s, slot, now, reply)|
    ensures Onward(s, RetryEffects(s, slot, now, reply)[i])
  {
    if i >= 1 {
      var run := Retried(s.runs[slot], now);
      AttemptedOnward(WithRun(s, run), run, reply, now, i - 1);
    }
  }

  lemma {:induction false} ApplyOnward(s: State, localTime: int, turn: Turn)
    requires Orderly(s)
    ensures Onward(s, Apply(s, localTime, turn))
  {
    var i := Min(turn.survives, |Effects(s, localTime, turn.call)| - 1);
    match turn.call
    case DoTick(now, reply) => TickOnward(s, localTime, now, reply, i);
    case DoRetry(slot, now, reply) => RetryOnward(s, slot, now, reply, i);
    case DoMarkMissed(now) =>
    case DoRecover(slot, now) =>
  }

  function RunFrom(s: State, localTime: int, turns: seq<Turn>): State {
    if turns == [] then s else Apply(RunFrom(s, localTime, turns[..|turns| - 1]), localTime, turns[|turns| - 1])
  }

  /** A slot that the schedule has passed keeps its run, unchanged, under every later call. */
  lemma {:induction false} PassedSlotsAreFrozen(s: State, localTime: int, turns: seq<Turn>, d: Slot)
    requires Orderly(s) && d in s.runs && d < s.schedule.value.next
    ensures var t := RunFrom(s, localTime, turns);
      && Orderly(t) && t.schedule.Some? && s.schedule.value.next <= t.schedule.value.next
      && d in t.runs && t.runs[d] == s.runs[d]
  {
    if turns != [] {
      var prior := RunFrom(s, localTime, turns[..|turns| - 1]);
      PassedSlotsAreFrozen(s, localTime, turns[..|turns| - 1], d);
      ApplyOrderly(prior, localTime, turns[|turns| - 1]);
      ApplyOnward(prior, localTime, turns[|turns| - 1]);
    }
  }

  // ----- The one state with no way out -----

  /** A missed run was recorded, and the process stopped before the schedule was advanced. */
  predicate Wedged(s: State) {
    s.schedule.Some? && s.schedule.value.next in s.runs && s.runs[s.schedule.value.next].status == Missed
  }

  lemma {:induction false} WedgedStep(s: State, localTime: int, turn: Turn)
    requires Orderly(s) && Wedged(s)
    ensures Apply(s, localTime, turn) == s
  {
  }

  /** From there no call changes anything, ever. */
  lemma {:induction false} WedgedForever(s: State, localTime: int, turns: seq<Turn>)
    requires Orderly(s) && Wedged(s)
    ensures RunFrom(s, localTime, turns) == s
  {
    if turns != [] {
      WedgedForever(s, localTime, turns[..|turns| - 1]);
      WedgedStep(s, localTime, turns[|turns| - 1]);
    }
  }

  /** Exactly one crash leads there: between recording a due, unrecorded slot as missed and advancing. */
  lemma {:induction false} WedgesIff(s: State, localTime: int, turn: Turn)
    requires Orderly(s) && !Wedged(s)
    ensures Wedged(Apply(s, localTime, turn)) <==> CrashedMarkingMissed(s, localTime, turn)
  {
    var i := Min(turn.survives, |Effects(s, localTime, turn.call)| - 1);
    match turn.call
    case DoTick(now, reply) => TickNeverWedges(s, localTime, now, reply, i);
    case DoRetry(slot, now, reply) => RetryNeverWedges(s, slot, now, reply, i);
    case DoMarkMissed(now) =>
    case DoRecover(slot, now) =>
  }

  predicate CrashedMarkingMissed(s: State, localTime: int, turn: Turn) {
    && turn.call.DoMarkMissed? && turn.survives == 2
    && var next := Initialised(s, localTime, turn.call.now).schedule.value.next;
       Due(localTime, next) <= turn.call.now && next !in s.runs
  }

  /** It happens: initialise, then crash while marking the first slot missed. */
  lemma {:induction false} CrashInMarkMissedWedges(localTime: int, start: Instant) returns (turns: seq<Turn>)
    ensures Wedged(Run(localTime, turns))
  {
    var initialise := Turn(DoMarkMissed(start), 1);
    var crash := Turn(DoMarkMissed(Due(localTime, FirstSlot(localTime, start))), 2);
    turns := [initialise, crash];
    var first := [initialise];
    assert turns[..|turns| - 1] == first && first[..|first| - 1] == [];
    var ready := Run(localTime, first);
    assert ready == Apply(Run(localTime, []), localTime, initialise);
    WedgesIff(ready, localTime, crash);
  }

  lemma {:induction false} AttemptedNeverWedges(s: State, run: DailyRun, reply: Reply, now: Instant, i: nat)
    requires Orderly(s) && s.schedule.Some? && run.slot == s.schedule.value.next
    requires run.slot in s.runs && run == s.runs[run.slot] && run.status == Running && i < |Attempted(s, run, reply, now)|
    ensures !Wedged(Attempted(s, run, reply, now)[i])
  {
  }

  lemma {:induction false} TickNeverWedges(s: State, localTime: int, now: Instant, reply: Reply, i: nat)
    requires Orderly(s) && !Wedged(s) && i < |TickEffects(s, localTime, now, reply)|
    ensures !Wedged(TickEffects(s, localTime, now, reply)[i])
  {
    var ready := Initialised(s, localTime, now);
    var schedule := ready.schedule.value;
    if now >= Due(localTime, schedule.next) && schedule.next !in ready.runs && i >= 2 {
      var run := Started(schedule.next, now);
      WithRunOrderly(ready, run);
      AttemptedNeverWedges(WithRun(ready, run), run, reply, now, i - 2);
    }
  }

  lemma {:induction false} RetryNeverWedges(s: State, slot: Slot, now: Instant, reply: Reply, i: nat)
    requires Orderly(s) && !Wedged(s) && i < |RetryEffects(s, slot, now, reply)|
    ensures !Wedged(RetryEffects(s, slot, now, reply)[i])
  {
    if i >= 1 {
      var run := Retried(s.runs[slot], now);
      WithRunOrderly(s, run);
      AttemptedNeverWedges(WithRun(s, run), run, reply, now, i - 1);
    }
  }

  /** Every other state has a way on: tick, retry, or recover and then retry. */
  lemma {:induction false} WayOn(s: State, localTime: int) returns (turns: seq<Turn>)
    requires Orderly(s) && s.schedule.Some? && !Wedged(s)
    ensures |turns| <= 2 && RunFrom(s, localTime, turns).schedule.Some?
    ensures RunFrom(s, localTime, turns).schedule.value.next == s.schedule.value.next + 1
  {
    var next := s.schedule.value.next;
    var now := Due(localTime, next);
    var retry := Turn(DoRetry(next, now, Delivers(false)), 9);
    if next in s.runs && s.runs[next].status == Running {
      var recover := Turn(DoRecover(next, now), 1);
      turns := [recover, retry];
      assert turns[..1] == [recover] && [recover][..0] == [];
      var recovered := Apply(s, localTime, recover);
      assert RunFrom(s, localTime, [recover]) == recovered;
      RetryAdvances(recovered, localTime, now);
    } else if next in s.runs && s.runs[next].status == Failed {
      turns := [retry];
      assert turns[..0] == [];
      RetryAdvances(s, localTime, now);
    } else {
      turns := [Turn(DoTick(now, Delivers(false)), 9)];
      assert turns[..0] == [];
    }
  }

  lemma {:induction false} RetryAdvances(s: State, localTime: int, now: Instant)
    requires s.schedule.Some? && s.schedule.value.next in s.runs
    requires var run := s.runs[s.schedule.value.next];
      run.status == Failed && run.retrySafe && run.slot == s.schedule.value.next
    ensures var t := Apply(s, localTime, Turn(DoRetry(s.schedule.value.next, now, Delivers(false)), 9));
      t.schedule.Some? && t.schedule.value.next == s.schedule.value.next + 1
  {
  }

  // ----- What each call does, by its inputs -----

  /** The first slot is the next one to come due. */
  lemma {:induction false} FirstSlotIsNext(localTime: int, now: Instant)
    requires 0 <= localTime < DAY
    ensures var slot := FirstSlot(localTime, now); Due(localTime, slot - 1) <= now < Due(localTime, slot)
  {
  }

  /** The slot a call made now would look at. */
  function NextSlot(s: State, localTime: int, now: Instant): Slot {
    if s.schedule.Some? then s.schedule.value.next else FirstSlot(localTime, now)
  }

  function LastSuccess(s: State): Option<Instant> {
    if s.schedule.Some? then s.schedule.value.lastSuccessful else None
  }

  function LastAttempt(s: State): Option<Instant> {
    if s.schedule.Some? then s.schedule.value.lastAttempted else None
  }

  /** What an attempt stores, by what its runner did. */
  predicate EndedAs(run: DailyRun, slot: Slot, attempt: int, reply: Reply, now: Instant) {
    && run.slot == slot && run.attempt == attempt && run.startedAt == Some(now) && run.completedAt == Some(now)
    && (run.status == Failed <==> reply == Throws)
    && (run.status == Completed <==> reply == Delivers(false))
    && (run.status == CompletedWithGaps <==> reply == Delivers(true))
    && (run.status == Failed ==> run.retrySafe)
  }

  /** After an attempt: its run is stored, and the schedule has moved past the slot exactly on success. */
  predicate Concluded(s: State, t: State, run: DailyRun, slot: Slot, attempt: int, reply: Reply, now: Instant) {
    && EndedAs(run, slot, attempt, reply, now) && t.runs == s.runs[slot := run]
    && t.schedule == Some(
         if reply.Throws? then Schedule(slot, Some(now), LastSuccess(s)) else Schedule(slot + 1, Some(now), Some(now)))
  }

  lemma {:induction false} AttemptConcludes(s: State, run: DailyRun, reply: Reply, now: Instant)
    requires s.schedule.Some? && run.slot == s.schedule.value.next && run.startedAt == Some(now)
    ensures Concluded(s, Last(Attempted(s, run, reply, now)), Finished(run, reply, now), run.slot, run.attempt, reply, now)
  {
  }

  lemma {:induction false} TickConcludes(s: State, localTime: int, now: Instant, reply: Reply)
    requires var slot := NextSlot(s, localTime, now); Due(localTime, slot) <= now && slot !in s.runs
    ensures var run := Started(NextSlot(s, localTime, now), now);
      var t := Last(Attempted(WithRun(Initialised(s, localTime, now), run), run, reply, now));
      t == Last(TickEffects(s, localTime, now, reply)) && Concluded(s, t, Finished(run, reply, now), run.slot, 1, reply, now)
  {
    var run := Started(NextSlot(s, localTime, now), now);
    var claimed := WithRun(Initialised(s, localTime, now), run);
    AttemptConcludes(claimed, run, reply, now);
  }

  /** A call that could have given slot `d` the status it has. */
  predicate Explains(s: State, localTime: int, call: Call, d: Slot, status: Status) {
    match call
    case DoTick(now, reply) =>
      && NextSlot(s, localTime, now) == d && Due(localTime, d) <= now && d !in s.runs
      && ReplyMeans(reply, status)
    case DoRetry(slot, now, reply) => slot == d && d in s.runs && s.runs[d].status == Failed && ReplyMeans(reply, status)
    case DoMarkMissed(now) =>
      NextSlot(s, localTime, now) == d && Due(localTime, d) <= now && d !in s.runs && status == Missed
    case DoRecover(slot, now) => slot == d && d in s.runs && s.runs[d].status == Running && status == Failed
  }

  /** A delivered brief completes, with or without gaps; an exception fails. */
  predicate ReplyMeans(reply: Reply, status: Status) {
    match status
    case Completed => reply == Delivers(false)
    case CompletedWithGaps => reply == Delivers(true)
    case Failed => reply == Throws
    case Running => true
    case Missed => false
  }

  lemma {:induction false} ApplyExplains(s: State, localTime: int, turn: Turn, d: Slot)
    requires Orderly(s) && d in Apply(s, localTime, turn).runs
    ensures var run := Apply(s, localTime, turn).runs[d];
      (d in s.runs && s.runs[d] == run) || Explains(s, localTime, turn.call, d, run.status)
  {
    var ready := Initialised(s, localTime, turn.call.now);
    assert ready.schedule.value.next == NextSlot(s, localTime, turn.call.now) && ready.runs == s.runs;
    match turn.call
    case DoTick(now, reply) =>
    case DoRetry(slot, now, reply) =>
    case DoMarkMissed(now) =>
    case DoRecover(slot, now) =>
  }

  /**
   * Under any calls and crashes, every recorded run got its status from some call: a slot is completed only
   * if the runner of a tick or retry of that very slot delivered, with gaps exactly as recorded; it is failed
   * only if a runner threw or the run was recovered, and missed only if it was due and marked so.
   */
  lemma {:induction false} EveryRunIsExplained(localTime: int, turns: seq<Turn>, d: Slot)
    requires d in Run(localTime, turns).runs
    ensures var status := Run(localTime, turns).runs[d].status;
      exists i :: 0 <= i < |turns| && Explains(Run(localTime, turns[..i]), localTime, turns[i].call, d, status)
  {
    var n := |turns| - 1;
    var prior := Run(localTime, turns[..n]);
    ReachableOrderly(localTime, turns[..n]);
    ApplyExplains(prior, localTime, turns[n], d);
    var status := Run(localTime, turns).runs[d].status;
    if !Explains(prior, localTime, turns[n].call, d, status) {
      EveryRunIsExplained(localTime, turns[..n], d);
      var i :| 0 <= i < n && Explains(Run(localTime, turns[..n][..i]), localTime, turns[..n][i].call, d, status);
      assert turns[..n][..i] == turns[..i];
    }
  }

  // ----- The scheduler object -----

  function Last(states: seq<State>): State
    requires states != []
  {
    states[|states| - 1]
  }

  predicate Descending(a: Slot, b: Slot) { b <= a }

  class DailyIntelligenceScheduler {
    const localTime: int
    var schedule: Option<Schedule>
    var runs: map<Slot, DailyRun>

    function Snapshot(): State
      reads this
    {
      State(schedule, runs)
    }

    ghost predicate Valid()
      reads this
    {
      Orderly(Snapshot())
    }

    constructor (localTime: int)
      ensures Valid() && Snapshot() == EMPTY && this.localTime == localTime
    {
      this.localTime, schedule, runs := localTime, None, map[];
    }

    method Initialise(now: Instant)
      modifies this`schedule
      ensures Snapshot() == Initialised(old(Snapshot()), localTime, now)
      ensures schedule.Some?
    {
      if schedule.None? { schedule := Some(Schedule(FirstSlot(localTime, now), None, None)); }
    }

    /** Insert-only: an existing run for the slot wins. */
    method ClaimRun(run: DailyRun) returns (ok: bool)
      modifies this`runs
      ensures ok <==> old(run.slot !in runs)
      ensures Snapshot() == if ok then WithRun(old(Snapshot()), run) else old(Snapshot())
    {
      ok := run.slot !in runs;
      if ok { runs := runs[run.slot := run]; }
    }

    /** Replace a run only if it is still exactly the one that was read. */
    method TransitionRun(previous: DailyRun, replacement: DailyRun) returns (ok: bool)
      requires replacement.slot == previous.slot
      modifies this`runs
      ensures ok <==> old(previous.slot in runs && runs[previous.slot] == previous)
      ensures Snapshot() == if ok then WithRun(old(Snapshot()), replacement) else old(Snapshot())
    {
      ok := previous.slot in runs && runs[previous.slot] == previous;
      if ok { runs := runs[previous.slot := replacement]; }
    }

    /** The part of tick and retry that follows the claim. */
    method Attempt(run: DailyRun, reply: Reply, now: Instant)
      requires schedule.Some?
      modifies this
      ensures Snapshot() == Last(Attempted(old(Snapshot()), run, reply, now))
    {
      schedule := Some(schedule.value.(lastAttempted := Some(now)));
      runs := runs[run.slot := Finished(run, reply, now)];
      if reply.Delivers? {
        schedule := Some(schedule.value.(lastSuccessful := Some(now)).Advance(run.slot));
      }
    }

    /**
     * Nothing before the slot is due; a recorded slot is only passed, if it succeeded; otherwise the runner
     * is called, and its reply decides the run stored and returned and whether the schedule moves on.
     */
    method Tick(now: Instant, reply: Reply) returns (run: Option<DailyRun>)
      requires Valid()
      modifies this
      ensures Valid() && Snapshot() == Last(TickEffects(old(Snapshot()), localTime, now, reply))
      ensures var s, slot := old(Snapshot()), NextSlot(old(Snapshot()), localTime, now);
        if now < Due(localTime, slot) then
          run == None && runs == s.runs && schedule == Some(Schedule(slot, LastAttempt(s), LastSuccess(s)))
        else if slot in s.runs then
          run == Some(s.runs[slot]) && runs == s.runs && s.schedule.Some?
          && schedule == Some(if s.runs[slot].status !in {Completed, CompletedWithGaps} then s.schedule.value
                              else Schedule(slot + 1, s.schedule.value.lastAttempted, s.runs[slot].completedAt))
        else run.Some? && Concluded(s, Snapshot(), run.value, slot, 1, reply, now)
    {
      TickOrderly(Snapshot(), localTime, now, reply);
      Initialise(now);
      var slot := schedule.value.next;
      if now < Due(localTime, slot) { return None; }
      if slot in runs {
        if Succeeded(runs[slot].status) {
          schedule := Some(schedule.value.(lastSuccessful := runs[slot].completedAt).Advance(slot));
        }
        return Some(runs[slot]);
      }
      var started := Started(slot, now);
      TickConcludes(old(Snapshot()), localTime, now, reply);
      var _ := ClaimRun(started);
      Attempt(started, reply, now);
      return Some(Finished(started, reply, now));
    }

    /** Only a failed, retry-safe run is tried again; the new attempt ends as its runner's reply says. */
    method Retry(slot: Slot, now: Instant, reply: Reply) returns (run: Option<DailyRun>)
      requires Valid()
      modifies this
      ensures Valid() && Snapshot() == Last(RetryEffects(old(Snapshot()), slot, now, reply))
      ensures run.Some? <==> old(slot in runs && runs[slot].status == Failed)
      ensures run.None? ==> Snapshot() == old(Snapshot())
      ensures run.Some? ==> Concluded(old(Snapshot()), Snapshot(), run.value, slot, old(runs)[slot].attempt + 1, reply, now)
    {
      RetryOrderly(Snapshot(), slot, now, reply);
      if slot !in runs || runs[slot].status != Failed || !runs[slot].retrySafe { return None; }
      var retrying := Retried(runs[slot], now);
      var _ := TransitionRun(runs[slot], retrying);
      AttemptConcludes(Snapshot(), retrying, reply, now);
      Attempt(retrying, reply, now);
      return Some(Finished(retrying, reply, now));
    }

    /** The run of the latest slot. */
    method LatestRun() returns (latest: Option<DailyRun>)
      requires forall d :: d in runs ==> runs[d].slot == d
      ensures latest.None? <==> runs == map[]
      ensures latest.Some? ==>
        latest.value.slot in runs && runs[latest.value.slot] == latest.value && forall d :: d in runs ==> d <= latest.value.slot
    {
      var order := SortKeys(Descending, runs.Keys);
      if order == [] {
        assert forall d :: d !in runs;
        return None;
      }
      assert order[0] in order;
      forall d | d in runs ensures d <= order[0] {
        var i :| 0 <= i < |order| && order[i] == d;
        assert i == 0 || Descending(order[0], order[i]);
      }
      return Some(runs[order[0]]);
    }

    /**
     * Record a due, unrecorded slot as missed; a recorded one is returned as it is. Before the slot is due
     * the latest run is returned if it was missed, and otherwise the call raises (None).
     */
    method MarkMissed(now: Instant) returns (run: Option<DailyRun>)
      requires Valid()
      modifies this
      ensures Valid() && Snapshot() == Last(MissedEffects(old(Snapshot()), localTime, now))
      ensures run.Some? ==> run.value.slot in runs && runs[run.value.slot] == run.value
      ensures var next := NextSlot(old(Snapshot()), localTime, now);
        if Due(localTime, next) <= now then
          if next in old(runs) then run == Some(old(runs)[next]) && runs == old(runs) && schedule == old(schedule)
          else
            && run == Some(DailyRun(next, 1, Missed, None, Some(now), true)) && runs == old(runs)[next := run.value]
            && schedule == Some(Schedule(next + 1, LastAttempt(old(Snapshot())), LastSuccess(old(Snapshot()))))
        else
          && runs == old(runs)
          && schedule == Some(Schedule(next, LastAttempt(old(Snapshot())), LastSuccess(old(Snapshot()))))
          && (run.Some? ==> run.value.status == Missed && forall d :: d in old(runs) ==> d <= run.value.slot)
          && (run.None? ==> forall d :: d in old(runs) && old(runs)[d].status == Missed ==> exists e :: e in old(runs) && d < e)
    {
      MarkMissedOrderly(Snapshot(), localTime, now);
      Initialise(now);
      var slot := schedule.value.next;
      if now < Due(localTime, slot) {
        var latest := LatestRun();
        if latest.Some? && latest.value.status == Missed { return latest; }
        return None;
      }
      if slot in runs { return Some(runs[slot]); }
      var missed := MissedRun(slot, now);
      var _ := ClaimRun(missed);
      schedule := Some(schedule.value.Advance(slot));
      return Some(missed);
    }

    method RecoverInterrupted(slot: Slot, now: Instant) returns (ok: bool)
      requires Valid()
      modifies this
      ensures Valid() && Snapshot() == Last(Recover(old(Snapshot()), slot, now))
      ensures ok <==> old(slot in runs && runs[slot].status == Running)
      ensures schedule == old(schedule)
      ensures ok ==>
        && slot in runs && runs == old(runs)[slot := runs[slot]]
        && runs[slot].status == Failed && runs[slot].retrySafe && runs[slot].completedAt == Some(now)
        && runs[slot].attempt == old(runs)[slot].attempt && runs[slot].startedAt == old(runs)[slot].startedAt
      ensures !ok ==> runs == old(runs)
    {
      RecoverOrderly(Snapshot(), slot, now);
      if slot !in runs || runs[slot].status != Running { return false; }
      ok := TransitionRun(runs[slot], runs[slot].(status := Failed, completedAt := Some(now), retrySafe := true));
    }
  }
}
