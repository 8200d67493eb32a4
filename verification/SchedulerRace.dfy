/**
 * Overlapping ticks, retries, missed marks and recoveries of the daily scheduler, one transaction at a
 * time. Schedule rows may be written back stale, so nothing is assumed about the slot a tick aims at:
 * only the insert-only claim and the whole-payload compare-and-set protect a slot.
 */
module SchedulerRace {
  import opened Sequences
  import opened Scheduler

  type Id = nat

  /** One call of the runner. */
  datatype Execution = Execution(slot: Slot, attempt: int)

  /** Where a caller is between its transactions. */
  datatype Pc =
    | Claimed(run: DailyRun)
    | Executing(run: DailyRun)
    | Retrying(run: DailyRun)
    | Recovering(run: DailyRun)

  datatype World = World(runs: map<Slot, DailyRun>, callers: map<Id, Pc>, executed: seq<Execution>)

  const START: World := World(map[], map[], [])

  datatype Step =
    | Claim(caller: Id, slot: Slot, now: Instant)
    | Miss(slot: Slot, now: Instant)
    | ReadFailed(caller: Id, slot: Slot)
    | ClaimRetry(caller: Id, now: Instant)
    | Invoke(caller: Id)
    | Save(caller: Id, reply: Reply, now: Instant)
    | ReadRunning(caller: Id, slot: Slot)
    | WriteRecovered(caller: Id, now: Instant)
    | Crash(caller: Id)

  function Put(w: World, c: Id, run: DailyRun, pc: Pc): World {
    w.(runs := w.runs[run.slot := run], callers := w.callers[c := pc])
  }

  function Leave(w: World, c: Id): World { w.(callers := w.callers - {c}) }

  predicate Stored(w: World, run: DailyRun) { run.slot in w.runs && w.runs[run.slot] == run }

  predicate Live(pc: Pc) { pc.Claimed? || pc.Executing? }

  /** The owner has confirmed that no process is still working on the slot. */
  ghost predicate Stopped(w: World, slot: Slot) {
    forall c :: c in w.callers && Live(w.callers[c]) ==> w.callers[c].run.slot != slot
  }

  ghost function Next(w: World, step: Step): World {
    match step
    case Claim(c, slot, now) =>
      if c in w.callers || slot in w.runs then w else Put(w, c, Started(slot, now), Claimed(Started(slot, now)))
    case Miss(slot, now) =>
      if slot in w.runs then w else w.(runs := w.runs[slot := MissedRun(slot, now)])
    case ReadFailed(c, slot) =>
      if c in w.callers || slot !in w.runs || w.runs[slot].status != Failed || !w.runs[slot].retrySafe then w
      else w.(callers := w.callers[c := Retrying(w.runs[slot])])
    case ClaimRetry(c, now) =>
      if c !in w.callers || !w.callers[c].Retrying? then w
      else
        var seen := w.callers[c].run;
        if Stored(w, seen) then Put(w, c, Retried(seen, now), Claimed(Retried(seen, now))) else Leave(w, c)
    case Invoke(c) =>
      if c !in w.callers || !w.callers[c].Claimed? then w
      else
        var run := w.callers[c].run;
        w.(executed := w.executed + [Execution(run.slot, run.attempt)], callers := w.callers[c := Executing(run)])
    case Save(c, reply, now) =>
      if c !in w.callers || !w.callers[c].Executing? then w
      else
        var run := w.callers[c].run;
        Leave(w.(runs := w.runs[run.slot := Finished(run, reply, now)]), c)
    case ReadRunning(c, slot) =>
      if c in w.callers || slot !in w.runs || w.runs[slot].status != Running then w
      else w.(callers := w.callers[c := Recovering(w.runs[slot])])
    case WriteRecovered(c, now) =>
      if c !in w.callers || !w.callers[c].Recovering? then w
      else
        var seen := w.callers[c].run;
        if Stopped(w, seen.slot) && Stored(w, seen)
        then Leave(w.(runs := w.runs[seen.slot := seen.(status := Failed, completedAt := Some(now), retrySafe := true)]), c)
        else Leave(w, c)
    case Crash(c) => Leave(w, c)
  }

  ghost function Run(steps: seq<Step>): World {
    if steps == [] then START else Next(Run(steps[..|steps| - 1]), steps[|steps| - 1])
  }

  // ----- The invariant -----

  ghost predicate Slots(w: World) { forall d :: d in w.runs ==> w.runs[d].slot == d && 1 <= w.runs[d].attempt }

  /** A live caller works on the stored, running run; nobody else does. */
  ghost predicate Callers(w: World) {
    && (forall c :: c in w.callers && Live(w.callers[c]) ==>
          Stored(w, w.callers[c].run) && w.callers[c].run.status == Running)
    && (forall b, c | b in w.callers && c in w.callers && Live(w.callers[b]) && Live(w.callers[c]) ::
          w.callers[b].run.slot == w.callers[c].run.slot ==> b == c)
    && (forall c :: c in w.callers && w.callers[c].Retrying? ==> w.callers[c].run.status == Failed)
    && (forall c :: c in w.callers && w.callers[c].Recovering? ==> w.callers[c].run.status == Running)
  }

  /** An executed attempt is at most the recorded one, and below it while a claimed run waits for its runner. */
  ghost predicate Covered(w: World, x: Execution) {
    && x.slot in w.runs && 1 <= x.attempt <= w.runs[x.slot].attempt
    && (forall c :: c in w.callers && w.callers[c].Claimed? && w.callers[c].run.slot == x.slot ==>
          x.attempt < w.callers[c].run.attempt)
  }

  ghost predicate Inv(w: World) {
    && Slots(w) && Callers(w)
    && (forall i :: 0 <= i < |w.executed| ==> Covered(w, w.executed[i]))
    && Distinct(w.executed)
  }

  lemma {:induction false} ClaimKeeps(w: World, c: Id, slot: Slot, now: Instant)
    requires Inv(w)
    ensures Inv(Next(w, Claim(c, slot, now)))
  {
    var t := Next(w, Claim(c, slot, now));
    if t != w {
      assert forall i :: 0 <= i < |w.executed| ==> Covered(w, w.executed[i]) && w.executed[i].slot != slot;
    }
  }

  lemma {:induction false} ClaimRetryKeeps(w: World, c: Id, now: Instant)
    requires Inv(w)
    ensures Inv(Next(w, ClaimRetry(c, now)))
  {
    var t := Next(w, ClaimRetry(c, now));
    if c in w.callers && w.callers[c].Retrying? && Stored(w, w.callers[c].run) {
      var seen := w.callers[c].run;
      forall i | 0 <= i < |w.executed| ensures Covered(t, t.executed[i]) { assert Covered(w, w.executed[i]); }
    } else {
      Quiet(w, t);
    }
  }

  /** Steps that change no run and nobody's live work. */
  lemma {:induction false} Quiet(w: World, t: World)
    requires Inv(w) && t.runs == w.runs && t.executed == w.executed
    requires forall c :: c in t.callers && Live(t.callers[c]) ==> c in w.callers && t.callers[c] == w.callers[c]
    requires forall c :: c in t.callers && t.callers[c].Retrying? ==> t.callers[c].run.status == Failed
    requires forall c :: c in t.callers && t.callers[c].Recovering? ==> t.callers[c].run.status == Running
    ensures Inv(t)
  {
    forall i | 0 <= i < |t.executed| ensures Covered(t, t.executed[i]) { assert Covered(w, w.executed[i]); }
  }

  lemma {:induction false} InvokeKeeps(w: World, c: Id)
    requires Inv(w)
    ensures Inv(Next(w, Invoke(c)))
  {
    var t := Next(w, Invoke(c));
    if c in w.callers && w.callers[c].Claimed? {
      var run := w.callers[c].run;
      forall i | 0 <= i < |t.executed| ensures Covered(t, t.executed[i]) {
        if i < |w.executed| { assert Covered(w, w.executed[i]); }
      }
      forall i | 0 <= i < |w.executed| ensures w.executed[i] != Execution(run.slot, run.attempt) {
        assert Covered(w, w.executed[i]);
      }
    }
  }

  lemma {:induction false} SaveKeeps(w: World, c: Id, reply: Reply, now: Instant)
    requires Inv(w)
    ensures Inv(Next(w, Save(c, reply, now)))
  {
    var t := Next(w, Save(c, reply, now));
    if c in w.callers && w.callers[c].Executing? {
      forall i | 0 <= i < |t.executed| ensures Covered(t, t.executed[i]) { assert Covered(w, w.executed[i]); }
    }
  }

  lemma {:induction false} RecoveredKeeps(w: World, c: Id, now: Instant)
    requires Inv(w)
    ensures Inv(Next(w, WriteRecovered(c, now)))
  {
    var t := Next(w, WriteRecovered(c, now));
    if c in w.callers && w.callers[c].Recovering? && Stopped(w, w.callers[c].run.slot) && Stored(w, w.callers[c].run) {
      forall i | 0 <= i < |t.executed| ensures Covered(t, t.executed[i]) { assert Covered(w, w.executed[i]); }
    } else {
      Quiet(w, t);
    }
  }

  lemma {:induction false} MissKeeps(w: World, slot: Slot, now: Instant)
    requires Inv(w)
    ensures Inv(Next(w, Miss(slot, now)))
  {
    var t := Next(w, Miss(slot, now));
    forall i | 0 <= i < |t.executed| ensures Covered(t, t.executed[i]) { assert Covered(w, w.executed[i]); }
  }

  lemma {:induction false} StepKeepsInv(w: World, step: Step)
    requires Inv(w)
    ensures Inv(Next(w, step))
  {
    match step
    case Claim(c, slot, now) => ClaimKeeps(w, c, slot, now);
    case Miss(slot, now) => MissKeeps(w, slot, now);
    case ClaimRetry(c, now) => ClaimRetryKeeps(w, c, now);
    case Invoke(c) => InvokeKeeps(w, c);
    case Save(c, reply, now) => SaveKeeps(w, c, reply, now);
    case WriteRecovered(c, now) => RecoveredKeeps(w, c, now);
    case _ => Quiet(w, Next(w, step));
  }

  lemma {:induction false} ReachableInv(steps: seq<Step>)
    ensures Inv(Run(steps))
  {
    if steps != [] {
      ReachableInv(steps[..|steps| - 1]);
      StepKeepsInv(Run(steps[..|steps| - 1]), steps[|steps| - 1]);
    }
  }

  /**
   * However ticks, retries and confirmed recoveries interleave and crash, the runner is called at most
   * once for each attempt of each slot, and two callers never work on one slot at a time.
   */
  lemma {:induction false} EachAttemptRunsOnce(steps: seq<Step>)
    ensures var w := Run(steps);
      && Distinct(w.executed)
      && (forall i :: 0 <= i < |w.executed| ==>
            w.executed[i].slot in w.runs && 1 <= w.executed[i].attempt <= w.runs[w.executed[i].slot].attempt)
      && (forall b, c | b in w.callers && c in w.callers && Live(w.callers[b]) && Live(w.callers[c]) ::
          w.callers[b].run.slot == w.callers[c].run.slot ==> b == c)
  {
    ReachableInv(steps);
    forall i | 0 <= i < |Run(steps).executed|
      ensures Covered(Run(steps), Run(steps).executed[i])
    {
    }
  }

  // ----- The calls of Scheduler are made of these steps -----

  /** The interleaved store holds the serial scheduler's runs, and nobody is at work. */
  ghost predicate Reaches(steps: seq<Step>, s: State) { Run(steps).runs == s.runs && Run(steps).callers == map[] }

  lemma {:induction false} RunSnoc(steps: seq<Step>, step: Step)
    ensures Run(steps + [step]) == Next(Run(steps), step)
  {
    assert (steps + [step])[..|steps|] == steps;
  }

  lemma {:induction false} RunsAtTheirSlots(steps: seq<Step>, slot: Slot)
    requires slot in Run(steps).runs
    ensures Run(steps).runs[slot].slot == slot
  {
    ReachableInv(steps);
  }

  /** Which runs are stored after the first `n` transactions of a tick. */
  lemma {:induction false} TickStores(s: State, localTime: int, now: Instant, reply: Reply, n: nat)
    requires n < |TickEffects(s, localTime, now, reply)|
    ensures var run := Started(NextSlot(s, localTime, now), now);
      TickEffects(s, localTime, now, reply)[n].runs ==
        if n < 2 || run.slot in s.runs then s.runs
        else s.runs[run.slot := if n < 4 then run else Finished(run, reply, now)]
  {
  }

  /** Which runs are stored after the first `n` transactions of a retry. */
  lemma {:induction false} RetryStores(s: State, slot: Slot, now: Instant, reply: Reply, n: nat)
    requires 1 <= n < |RetryEffects(s, slot, now, reply)| && s.runs[slot].slot == slot
    ensures var run := Retried(s.runs[slot], now);
      RetryEffects(s, slot, now, reply)[n].runs == s.runs[slot := if n < 3 then run else Finished(run, reply, now)]
  {
  }

  /** A claimed run either gets its reply saved, or is left running by a crash. */
  lemma {:induction false} WorkAlone(prior: seq<Step>, run: DailyRun, saves: bool, reply: Reply, now: Instant)
    returns (steps: seq<Step>)
    requires Run(prior).callers == map[0 := Claimed(run)]
    ensures Run(steps).callers == map[]
    ensures Run(steps).runs == if saves then Run(prior).runs[run.slot := Finished(run, reply, now)] else Run(prior).runs
  {
    if saves {
      steps := prior + [Invoke(0)];
      RunSnoc(prior, Invoke(0));
      assert Run(steps).callers == map[0 := Executing(run)];
      RunSnoc(steps, Save(0, reply, now));
      steps := steps + [Save(0, reply, now)];
    } else {
      RunSnoc(prior, Crash(0));
      steps := prior + [Crash(0)];
    }
  }

  lemma {:induction false} TickInSteps(prior: seq<Step>, s: State, localTime: int, now: Instant, reply: Reply, n: nat)
    returns (steps: seq<Step>)
    requires Reaches(prior, s) && n < |TickEffects(s, localTime, now, reply)|
    ensures Reaches(steps, TickEffects(s, localTime, now, reply)[n])
  {
    var slot := NextSlot(s, localTime, now);
    TickStores(s, localTime, now, reply, n);
    steps := prior;
    if n >= 2 && slot !in s.runs {
      RunSnoc(prior, Claim(0, slot, now));
      assert Run(prior + [Claim(0, slot, now)]).callers == map[0 := Claimed(Started(slot, now))];
      steps := WorkAlone(prior + [Claim(0, slot, now)], Started(slot, now), n >= 4, reply, now);
    }
  }

  lemma {:induction false} RetryInSteps(prior: seq<Step>, s: State, slot: Slot, now: Instant, reply: Reply, n: nat)
    returns (steps: seq<Step>)
    requires Reaches(prior, s) && n < |RetryEffects(s, slot, now, reply)|
    ensures Reaches(steps, RetryEffects(s, slot, now, reply)[n])
  {
    steps := prior;
    if n >= 1 {
      var seen := s.runs[slot];
      RunsAtTheirSlots(prior, slot);
      RunSnoc(prior, ReadFailed(0, slot));
      steps := prior + [ReadFailed(0, slot)];
      assert Run(steps).callers == map[0 := Retrying(seen)];
      RunSnoc(steps, ClaimRetry(0, now));
      steps := steps + [ClaimRetry(0, now)];
      assert Run(steps).callers == map[0 := Claimed(Retried(seen, now))];
      RetryStores(s, slot, now, reply, n);
      steps := WorkAlone(steps, Retried(seen, now), n >= 3, reply, now);
    }
  }

  lemma {:induction false} RecoverInSteps(prior: seq<Step>, s: State, slot: Slot, now: Instant, n: nat)
    returns (steps: seq<Step>)
    requires Reaches(prior, s) && n < |Recover(s, slot, now)|
    ensures Reaches(steps, Recover(s, slot, now)[n])
  {
    steps := prior;
    if n >= 1 {
      RunsAtTheirSlots(prior, slot);
      RunSnoc(prior, ReadRunning(0, slot));
      steps := prior + [ReadRunning(0, slot)];
      assert Run(steps).callers == map[0 := Recovering(s.runs[slot])];
      RunSnoc(steps, WriteRecovered(0, now));
      steps := steps + [WriteRecovered(0, now)];
    }
  }

  lemma {:induction false} MissedInSteps(prior: seq<Step>, s: State, localTime: int, now: Instant, n: nat)
    returns (steps: seq<Step>)
    requires Reaches(prior, s) && n < |MissedEffects(s, localTime, now)|
    ensures Reaches(steps, MissedEffects(s, localTime, now)[n])
  {
    var slot := NextSlot(s, localTime, now);
    steps := prior;
    if n >= 2 {
      RunSnoc(prior, Miss(slot, now));
      steps := prior + [Miss(slot, now)];
    }
  }

  lemma {:induction false} TurnInSteps(prior: seq<Step>, s: State, localTime: int, turn: Turn) returns (steps: seq<Step>)
    requires Reaches(prior, s)
    ensures Reaches(steps, Apply(s, localTime, turn))
  {
    var n := Min(turn.survives, |Effects(s, localTime, turn.call)| - 1);
    match turn.call
    case DoTick(now, reply) => steps := TickInSteps(prior, s, localTime, now, reply, n);
    case DoRetry(slot, now, reply) => steps := RetryInSteps(prior, s, slot, now, reply, n);
    case DoMarkMissed(now) => steps := MissedInSteps(prior, s, localTime, now, n);
    case DoRecover(slot, now) => steps := RecoverInSteps(prior, s, slot, now, n);
  }

  /** Every serial run of calls, with its crashes, is an interleaving that stores the same daily runs. */
  lemma {:induction false} SerialTurnsAreInterleavings(localTime: int, turns: seq<Turn>) returns (steps: seq<Step>)
    ensures Reaches(steps, Scheduler.Run(localTime, turns))
  {
    steps := [];
    if turns != [] {
      steps := SerialTurnsAreInterleavings(localTime, turns[..|turns| - 1]);
      steps := TurnInSteps(steps, Scheduler.Run(localTime, turns[..|turns| - 1]), localTime, turns[|turns| - 1]);
    }
  }
}
