/**
 * Any number of workers and service callers over one job table, one transaction at a time.
 * Service calls, and the worker's block, read a job in one transaction and write the whole row back
 * in a later one, guarded only by the stored status; a worker claims in one transaction and finishes
 * in another. A caller may crash between any two of them.
 */
module JobExclusion {
  import opened Sequences
  import opened JobAuthority

  /** The read-then-write operations. */
  datatype Call = Move(simple: Simple) | Bind(approval: Approval) | Block | Recover

  function Expected(call: Call): set<Status> {
    match call
    case Move(simple) => Allowed(simple)
    case Bind(_) => {AwaitingApproval}
    case Block => {Ready, RetryWait}
    case Recover => {Running}
  }

  function Written(job: Job, call: Call, now: Instant): Job {
    match call
    case Move(simple) => job.(status := Target(simple), updatedAt := now)
    case Bind(a) => job.(status := Ready, approval := Some(a), updatedAt := now)
    case Block => job.(status := Blocked, updatedAt := now)
    case Recover => job.(status := Ready, updatedAt := now)
  }

  /** What an actor remembers between its transactions. */
  datatype Pc =
    | Calling(id: Id, seen: Job, call: Call)
    | Selected(id: Id, seen: Job)
    | Holding(id: Id, seen: Job)

  datatype State = State(jobs: map<Id, Job>, actors: map<Id, Pc>)

  const INITIAL: State := State(map[], map[])

  datatype Step =
    | Create(id: Id, job: Job)
    | Read(actor: Id, id: Id, call: Call, now: Instant)
    | Write(actor: Id, now: Instant)
    | Select(actor: Id, id: Id, now: Instant)
    | Claim(actor: Id, now: Instant)
    | Finish(actor: Id, target: Status, now: Instant, retryAt: Option<Instant>, checkpointId: Option<Id>)
    | Crash(actor: Id)

  function Leave(s: State, a: Id): State { s.(actors := s.actors - {a}) }

  /** The statuses a worker writes when it is done with a running job. */
  predicate Finishing(target: Status) {
    target in {Completed, CompletedWithWarnings, Failed, RetryWait, Indeterminate, Ready}
  }

  function Next(s: State, step: Step): State {
    match step
    case Create(id, job) =>
      if id !in s.jobs && job.status in {Planned, AwaitingApproval, Ready} then s.(jobs := s.jobs[id := job]) else s
    case Read(a, id, call, now) =>
      if a in s.actors || id !in s.jobs || s.jobs[id].status !in Expected(call) then s
      else if call.Bind? && !(s.jobs[id].spec.plan.Some? && call.approval.Matches(s.jobs[id].spec.plan.value, now)) then s
      else s.(actors := s.actors[a := Calling(id, s.jobs[id], call)])
    case Write(a, now) =>
      if a !in s.actors || !s.actors[a].Calling? then s
      else
        var Calling(id, seen, call) := s.actors[a];
        if id in s.jobs && s.jobs[id].status in Expected(call)
        then Leave(s.(jobs := s.jobs[id := Written(seen, call, now)]), a) else Leave(s, a)
    case Select(a, id, now) =>
      if a !in s.actors && id in s.jobs && s.jobs[id].Claimable(now)
      then s.(actors := s.actors[a := Selected(id, s.jobs[id])]) else s
    case Claim(a, now) =>
      if a !in s.actors || !s.actors[a].Selected? then s
      else
        var id := s.actors[a].id;
        if id in s.jobs && s.jobs[id].Claimable(now)
        then State(s.jobs[id := Claimed(s.jobs[id], now)], s.actors[a := Holding(id, Claimed(s.jobs[id], now))])
        else Leave(s, a)
    case Finish(a, target, now, retryAt, checkpointId) =>
      if a !in s.actors || !s.actors[a].Holding? || !Finishing(target) then s
      else
        var Holding(id, seen) := s.actors[a];
        if id in s.jobs && s.jobs[id].status == Running
        then Leave(s.(jobs := s.jobs[id :=
               seen.(status := target, updatedAt := now, nextRetryAt := retryAt, checkpointId := checkpointId)]), a)
        else Leave(s, a)
    case Crash(a) => Leave(s, a)
  }

  function Run(s: State, steps: seq<Step>): State {
    if steps == [] then s else Next(Run(s, steps[..|steps| - 1]), steps[|steps| - 1])
  }

  predicate Recovering(step: Step) { step.Read? && step.call.Recover? }

  ghost predicate NoRecovery(steps: seq<Step>) { forall i :: 0 <= i < |steps| ==> !Recovering(steps[i]) }

  predicate Holds(s: State, a: Id, id: Id) { a in s.actors && s.actors[a].Holding? && s.actors[a].id == id }

  // ----- Exclusion -----

  ghost predicate Exclusive(s: State) {
    && (forall a :: a in s.actors && s.actors[a].Holding? ==>
          s.actors[a].id in s.jobs && s.jobs[s.actors[a].id].status == Running)
    && (forall a, b, id :: Holds(s, a, id) && Holds(s, b, id) ==> a == b)
    && (forall a :: a in s.actors && s.actors[a].Calling? ==> !s.actors[a].call.Recover?)
  }

  lemma {:induction false} WriteKeepsExclusive(s: State, a: Id, now: Instant)
    requires Exclusive(s)
    ensures Exclusive(Next(s, Write(a, now)))
  {
    var t := Next(s, Write(a, now));
    assert forall b, id :: Holds(t, b, id) ==> Holds(s, b, id);
  }

  lemma {:induction false} ClaimKeepsExclusive(s: State, a: Id, now: Instant)
    requires Exclusive(s)
    ensures Exclusive(Next(s, Claim(a, now)))
  {
    var t := Next(s, Claim(a, now));
    assert forall b, id :: b != a && Holds(t, b, id) ==> Holds(s, b, id);
    if a in t.actors && t.actors[a].Holding? && t != s {
      assert forall b :: !Holds(s, b, t.actors[a].id);
    }
  }

  lemma {:induction false} FinishKeepsExclusive(s: State, step: Step)
    requires Exclusive(s) && step.Finish?
    ensures Exclusive(Next(s, step))
  {
    var t := Next(s, step);
    assert forall b, id :: Holds(t, b, id) ==> Holds(s, b, id);
    if t != s {
      assert Holds(s, step.actor, s.actors[step.actor].id);
      forall b | b in t.actors && t.actors[b].Holding?
        ensures t.actors[b].id in t.jobs && t.jobs[t.actors[b].id].status == Running
      {
        assert Holds(s, b, s.actors[b].id);
      }
    }
  }

  lemma {:induction false} StepKeepsExclusive(s: State, step: Step)
    requires Exclusive(s) && !Recovering(step)
    ensures Exclusive(Next(s, step))
  {
    match step
    case Write(a, now) => WriteKeepsExclusive(s, a, now);
    case Claim(a, now) => ClaimKeepsExclusive(s, a, now);
    case Finish(_, _, _, _, _) => FinishKeepsExclusive(s, step);
    case _ => assert forall b, id :: Holds(Next(s, step), b, id) ==> Holds(s, b, id);
  }

  lemma {:induction false} ReachableExclusive(steps: seq<Step>)
    requires NoRecovery(steps)
    ensures Exclusive(Run(INITIAL, steps))
  {
    if steps != [] {
      ReachableExclusive(steps[..|steps| - 1]);
      StepKeepsExclusive(Run(INITIAL, steps[..|steps| - 1]), steps[|steps| - 1]);
    }
  }

  /** At most one worker is between its claim of a job and its finishing write, and the job is then running. */
  lemma {:induction false} AtMostOneHolder(steps: seq<Step>, a: Id, b: Id, id: Id)
    requires NoRecovery(steps)
    requires Holds(Run(INITIAL, steps), a, id)
    ensures id in Run(INITIAL, steps).jobs && Run(INITIAL, steps).jobs[id].status == Running
    ensures Holds(Run(INITIAL, steps), b, id) ==> a == b
  {
    ReachableExclusive(steps);
  }

  /** Only the finishing write of the worker that holds a job takes it out of RUNNING. */
  lemma {:induction false} OnlyHolderLeavesRunning(steps: seq<Step>, step: Step, id: Id)
    requires NoRecovery(steps + [step])
    requires id in Run(INITIAL, steps).jobs && Run(INITIAL, steps).jobs[id].status == Running
    ensures var s, t := Run(INITIAL, steps), Next(Run(INITIAL, steps), step);
      id in t.jobs && (t.jobs[id] == s.jobs[id] || (step.Finish? && Holds(s, step.actor, id)))
  {
    assert NoRecovery(steps) by {
      assert forall i :: 0 <= i < |steps| ==> steps[i] == (steps + [step])[i];
    }
    ReachableExclusive(steps);
  }

  /** A running job that no worker holds stays exactly as it is until someone recovers it. */
  lemma {:induction false} StrandedUntilRecovered(s: State, steps: seq<Step>, id: Id)
    requires Exclusive(s) && NoRecovery(steps)
    requires id in s.jobs && s.jobs[id].status == Running && forall a :: !Holds(s, a, id)
    ensures var t := Run(s, steps);
      Exclusive(t) && id in t.jobs && t.jobs[id] == s.jobs[id] && forall a :: !Holds(t, a, id)
  {
    if steps != [] {
      var prior, step := steps[..|steps| - 1], steps[|steps| - 1];
      StrandedUntilRecovered(s, prior, id);
      StepKeepsExclusive(Run(s, prior), step);
      StrandedStep(Run(s, prior), step, id);
    }
  }

  lemma {:induction false} StrandedStep(s: State, step: Step, id: Id)
    requires Exclusive(s) && !Recovering(step)
    requires id in s.jobs && s.jobs[id].status == Running && forall a :: !Holds(s, a, id)
    ensures var t := Next(s, step);
      id in t.jobs && t.jobs[id] == s.jobs[id] && forall a :: !Holds(t, a, id)
  {
    var t := Next(s, step);
    forall a ensures !Holds(t, a, id) { assert !Holds(s, a, id); }
    if step.Finish? { assert !Holds(s, step.actor, id); }
  }

  // ----- Terminal statuses, with or without recovery -----

  lemma {:induction false} TerminalStep(s: State, step: Step, id: Id)
    requires id in s.jobs && Terminal(s.jobs[id].status)
    ensures id in Next(s, step).jobs && Next(s, step).jobs[id] == s.jobs[id]
  {
  }

  /** Whatever stale writes, claims, crashes and recoveries follow, a finished job's row never changes again. */
  lemma {:induction false} TerminalForever(s: State, steps: seq<Step>, id: Id)
    requires id in s.jobs && Terminal(s.jobs[id].status)
    ensures id in Run(s, steps).jobs && Run(s, steps).jobs[id] == s.jobs[id]
  {
    if steps != [] {
      TerminalForever(s, steps[..|steps| - 1], id);
      TerminalStep(Run(s, steps[..|steps| - 1]), steps[|steps| - 1], id);
    }
  }

  // ----- Checked authority is used authority -----

  /** How an actor's copy of a job may differ from the stored row in what authority depends on. */
  ghost predicate Faithful(seen: Job, stored: Job) {
    && seen.spec == stored.spec
    && (stored.status == AwaitingApproval ==> seen.status == AwaitingApproval)
    && (stored.status == Cancelled || seen.status == AwaitingApproval || seen.approval == stored.approval)
  }

  ghost predicate Remembered(pc: Pc) {
    match pc
    case Calling(_, seen, call) => seen.status in Expected(call)
    case Selected(_, seen) => seen.status in {Ready, RetryWait}
    case Holding(_, seen) => seen.status == Running
  }

  ghost predicate Honest(s: State) {
    forall a :: a in s.actors ==>
      Remembered(s.actors[a]) && s.actors[a].id in s.jobs && Faithful(s.actors[a].seen, s.jobs[s.actors[a].id])
  }

  /** A new row for `id` that every honest copy of the old one is honest about. */
  ghost predicate Replaces(stored: Job, row: Job) {
    && row.spec == stored.spec && row.status != AwaitingApproval
    && (row.status == Cancelled || stored.status == AwaitingApproval || row.approval == stored.approval)
    && stored.status != Cancelled
  }

  lemma {:induction false} FaithfulAfter(seen: Job, stored: Job, row: Job)
    requires Faithful(seen, stored) && Replaces(stored, row)
    ensures Faithful(seen, row)
  {
  }

  lemma {:induction false} ReplacementKeepsHonest(s: State, t: State, id: Id, a: Id)
    requires Honest(s) && id in s.jobs && id in t.jobs && Replaces(s.jobs[id], t.jobs[id])
    requires t.jobs == s.jobs[id := t.jobs[id]]
    requires forall b :: b in t.actors && b != a ==> b in s.actors && t.actors[b] == s.actors[b]
    requires a in t.actors ==>
      Remembered(t.actors[a]) && t.actors[a].id == id && t.actors[a].seen == t.jobs[id]
    ensures Honest(t)
  {
    forall b | b in t.actors
      ensures Remembered(t.actors[b]) && t.actors[b].id in t.jobs && Faithful(t.actors[b].seen, t.jobs[t.actors[b].id])
    {
      if b != a && t.actors[b].id == id { FaithfulAfter(s.actors[b].seen, s.jobs[id], t.jobs[id]); }
    }
  }

  lemma {:induction false} WriteKeepsHonest(s: State, a: Id, now: Instant)
    requires Honest(s)
    ensures Honest(Next(s, Write(a, now)))
  {
    var t := Next(s, Write(a, now));
    if a in s.actors && s.actors[a].Calling? && s.jobs[s.actors[a].id].status in Expected(s.actors[a].call) {
      var Calling(id, seen, call) := s.actors[a];
      assert t.jobs[id] == Written(seen, call, now);
      ReplacementKeepsHonest(s, t, id, a);
    }
  }

  lemma {:induction false} ClaimKeepsHonest(s: State, a: Id, now: Instant)
    requires Honest(s)
    ensures Honest(Next(s, Claim(a, now)))
  {
    if a in s.actors && s.actors[a].Selected? && s.jobs[s.actors[a].id].Claimable(now) {
      ReplacementKeepsHonest(s, Next(s, Claim(a, now)), s.actors[a].id, a);
    }
  }

  lemma {:induction false} FinishKeepsHonest(s: State, step: Step)
    requires Honest(s) && step.Finish?
    ensures Honest(Next(s, step))
  {
    var a := step.actor;
    if a in s.actors && s.actors[a].Holding? && Finishing(step.target) && s.jobs[s.actors[a].id].status == Running {
      ReplacementKeepsHonest(s, Next(s, step), s.actors[a].id, a);
    }
  }

  lemma {:induction false} StepKeepsHonest(s: State, step: Step)
    requires Honest(s)
    ensures Honest(Next(s, step))
  {
    match step
    case Write(a, now) => WriteKeepsHonest(s, a, now);
    case Claim(a, now) => ClaimKeepsHonest(s, a, now);
    case Finish(_, _, _, _, _) => FinishKeepsHonest(s, step);
    case _ =>
  }

  lemma {:induction false} ReachableHonest(steps: seq<Step>)
    ensures Honest(Run(INITIAL, steps))
  {
    if steps != [] {
      ReachableHonest(steps[..|steps| - 1]);
      StepKeepsHonest(Run(INITIAL, steps[..|steps| - 1]), steps[|steps| - 1]);
    }
  }

  /**
   * The job a worker claims has the specification and the approval of the candidate it checked, under
   * any interleaving; so what the checks entitle still holds of the claimed job, and the connector
   * request built from it passes its binding check.
   */
  lemma {:induction false} ClaimedIsWhatWasChecked(
    steps: seq<Step>, a: Id, now: Instant, checkpoint: Option<Checkpoint>, worker: Worker)
    requires var s := Run(INITIAL, steps); a in s.actors && s.actors[a].Selected?
    requires var s := Run(INITIAL, steps); Check(s.actors[a].id, s.actors[a].seen, checkpoint, worker, now).Cleared?
    requires var t := Next(Run(INITIAL, steps), Claim(a, now)); a in t.actors
    ensures var s, t := Run(INITIAL, steps), Next(Run(INITIAL, steps), Claim(a, now));
      && Holds(t, a, s.actors[a].id)
      && t.actors[a].seen.spec == s.actors[a].seen.spec && t.actors[a].seen.approval == s.actors[a].seen.approval
      && Entitled(s.actors[a].id, t.actors[a].seen, checkpoint, worker, now)
      && ExecutionRequest(t.actors[a].seen, Check(s.actors[a].id, s.actors[a].seen, checkpoint, worker, now).authority).Accepted()
  {
    ReachableHonest(steps);
    var s, t := Run(INITIAL, steps), Next(Run(INITIAL, steps), Claim(a, now));
    var id, seen := s.actors[a].id, s.actors[a].seen;
    assert t.actors[a].seen == Claimed(s.jobs[id], now);
    ClearedIffEntitled(id, seen, checkpoint, worker, now);
    BindingCannotFail(id, seen, checkpoint, worker, now, t.actors[a].seen);
    SameEntitlement(id, seen, t.actors[a].seen, checkpoint, worker, now);
  }

  /** Entitlement depends only on the specification and the approval. */
  lemma {:induction false} SameEntitlement(
    id: Id, seen: Job, claimed: Job, checkpoint: Option<Checkpoint>, worker: Worker, now: Instant)
    requires seen.spec == claimed.spec && seen.approval == claimed.approval
    ensures Entitled(id, seen, checkpoint, worker, now) <==> Entitled(id, claimed, checkpoint, worker, now)
  {
  }

  // ----- The attempt count under overlap -----

  lemma {:induction false} RunSnoc(steps: seq<Step>, step: Step)
    ensures Run(INITIAL, steps + [step]) == Next(Run(INITIAL, steps), step)
  {
    assert (steps + [step])[..|steps + [step]| - 1] == steps;
  }

  /** The step is a claim of the job that succeeds. */
  predicate ClaimsJob(s: State, step: Step, id: Id) {
    && step.Claim? && step.actor in s.actors && s.actors[step.actor].Selected? && s.actors[step.actor].id == id
    && id in s.jobs && s.jobs[id].Claimable(step.now)
  }

  /** The step writes an actor's copy of the job back, and is accepted. */
  predicate WritesBack(s: State, step: Step, id: Id) {
    && (step.Write? || step.Finish?) && step.actor in s.actors && s.actors[step.actor].id == id && id in s.jobs
    && (step.Write? ==> s.actors[step.actor].Calling? && s.jobs[id].status in Expected(s.actors[step.actor].call))
    && (step.Finish? ==> s.actors[step.actor].Holding? && Finishing(step.target) && s.jobs[id].status == Running)
  }

  /** The actor's copy of a job is taken at this step. */
  predicate TakesCopy(s: State, step: Step, a: Id) {
    var t := Next(s, step);
    a in t.actors && (a !in s.actors || t.actors[a] != s.actors[a])
  }

  /** Claims of the job that have succeeded so far. */
  function Claims(steps: seq<Step>, id: Id): nat {
    if steps == [] then 0
    else
      var prior := steps[..|steps| - 1];
      Claims(prior, id) + if ClaimsJob(Run(INITIAL, prior), steps[|steps| - 1], id) then 1 else 0
  }

  /** The attempt count the job was created with. */
  function Opening(steps: seq<Step>, id: Id): int {
    if steps == [] then 0
    else
      var prior, step := steps[..|steps| - 1], steps[|steps| - 1];
      if step.Create? && step.id == id && id !in Run(INITIAL, prior).jobs then step.job.attempts else Opening(prior, id)
  }

  /** How many steps had been taken when the actor took the copy it still holds. */
  function CopiedAt(steps: seq<Step>, a: Id): nat {
    if steps == [] then 0
    else if TakesCopy(Run(INITIAL, steps[..|steps| - 1]), steps[|steps| - 1], a) then |steps|
    else CopiedAt(steps[..|steps| - 1], a)
  }

  /** Claims that the stored attempt count has lost. */
  function Deficit(steps: seq<Step>, id: Id): int
    requires id in Run(INITIAL, steps).jobs
  {
    Opening(steps, id) + Claims(steps, id) - Run(INITIAL, steps).jobs[id].attempts
  }

  /** The stored count is the opening count plus the successful claims. */
  predicate Exact(steps: seq<Step>, id: Id)
    requires id in Run(INITIAL, steps).jobs
  {
    Deficit(steps, id) == 0
  }

  /** A claim of the job succeeded after the actor took its copy. */
  predicate Overlaps(steps: seq<Step>, a: Id, id: Id)
    requires CopiedAt(steps, a) <= |steps|
  {
    Claims(steps[..CopiedAt(steps, a)], id) < Claims(steps, id)
  }

  lemma {:induction false} CountsSnoc(steps: seq<Step>, step: Step, id: Id, a: Id)
    ensures Claims(steps + [step], id) == Claims(steps, id) + if ClaimsJob(Run(INITIAL, steps), step, id) then 1 else 0
    ensures Opening(steps + [step], id)
      == if step.Create? && step.id == id && id !in Run(INITIAL, steps).jobs then step.job.attempts else Opening(steps, id)
    ensures CopiedAt(steps + [step], a)
      == if TakesCopy(Run(INITIAL, steps), step, a) then |steps| + 1 else CopiedAt(steps, a)
  {
    assert (steps + [step])[..|steps + [step]| - 1] == steps;
  }

  lemma {:induction false} ClaimsGrow(steps: seq<Step>, n: nat, id: Id)
    requires n <= |steps|
    ensures Claims(steps[..n], id) <= Claims(steps, id)
    decreases |steps|
  {
    if n == |steps| {
      assert steps[..n] == steps;
    } else {
      ClaimsGrow(steps[..|steps| - 1], n, id);
      assert steps[..|steps| - 1][..n] == steps[..n];
    }
  }

  /** What one step does to a stored job's attempts. */
  lemma {:induction false} AttemptsStep(s: State, step: Step, id: Id)
    requires id in s.jobs
    ensures var t := Next(s, step);
      && id in t.jobs
      && t.jobs[id].attempts ==
           if ClaimsJob(s, step, id) then s.jobs[id].attempts + 1
           else if WritesBack(s, step, id) then s.actors[step.actor].seen.attempts
           else s.jobs[id].attempts
  {
  }

  /** The opening count is fixed once the job exists. */
  lemma {:induction false} OpeningIsFixed(steps: seq<Step>, n: nat, id: Id)
    requires n <= |steps| && id in Run(INITIAL, steps[..n]).jobs
    ensures id in Run(INITIAL, steps).jobs && Opening(steps[..n], id) == Opening(steps, id)
    decreases |steps|
  {
    if n == |steps| {
      assert steps[..n] == steps;
    } else {
      var prior := steps[..|steps| - 1];
      assert prior[..n] == steps[..n];
      OpeningIsFixed(prior, n, id);
      AttemptsStep(Run(INITIAL, prior), steps[|steps| - 1], id);
    }
  }

  /** A fresh copy is the stored row. */
  lemma {:induction false} FreshCopy(s: State, step: Step, a: Id)
    requires TakesCopy(s, step, a)
    ensures var t := Next(s, step); t.actors[a].id in t.jobs && t.actors[a].seen == t.jobs[t.actors[a].id]
  {
  }

  lemma {:induction false} OldCopy(s: State, step: Step, a: Id)
    requires a in Next(s, step).actors && !TakesCopy(s, step, a)
    ensures a in s.actors && Next(s, step).actors[a] == s.actors[a]
  {
  }

  /** Every actor holds the row that was stored when it took its copy. */
  lemma {:induction false} CopyIsTheStoredRow(steps: seq<Step>, a: Id)
    requires a in Run(INITIAL, steps).actors
    ensures var pc := Run(INITIAL, steps).actors[a]; var n := CopiedAt(steps, a);
      n <= |steps| && pc.id in Run(INITIAL, steps[..n]).jobs && pc.seen == Run(INITIAL, steps[..n]).jobs[pc.id]
  {
    if steps != [] {
      var prior, step := steps[..|steps| - 1], steps[|steps| - 1];
      if TakesCopy(Run(INITIAL, prior), step, a) {
        FreshCopy(Run(INITIAL, prior), step, a);
        assert steps[..|steps|] == steps;
      } else {
        OldCopy(Run(INITIAL, prior), step, a);
        CopyIsTheStoredRow(prior, a);
        assert prior[..CopiedAt(prior, a)] == steps[..CopiedAt(prior, a)];
      }
    }
  }

  /** An accepted write-back leaves the deficit of its copy, plus the claims made since. */
  lemma {:induction false} DeficitAfterWriteBack(steps: seq<Step>, step: Step, id: Id)
    requires WritesBack(Run(INITIAL, steps), step, id)
    ensures var n := CopiedAt(steps, step.actor);
      && n <= |steps| && id in Run(INITIAL, steps[..n]).jobs && id in Run(INITIAL, steps + [step]).jobs
      && Deficit(steps + [step], id) == Deficit(steps[..n], id) + Claims(steps, id) - Claims(steps[..n], id)
  {
    var s := Run(INITIAL, steps);
    CopyIsTheStoredRow(steps, step.actor);
    RunSnoc(steps, step);
    CountsSnoc(steps, step, id, step.actor);
    AttemptsStep(s, step, id);
    OpeningIsFixed(steps, CopiedAt(steps, step.actor), id);
  }

  /** Every other step keeps the deficit; creation starts it at zero. */
  lemma {:induction false} DeficitElsewhere(steps: seq<Step>, step: Step, id: Id)
    requires id in Run(INITIAL, steps + [step]).jobs && !WritesBack(Run(INITIAL, steps), step, id)
    ensures Deficit(steps + [step], id) ==
      if id in Run(INITIAL, steps).jobs then Deficit(steps, id) else Claims(steps, id)
  {
    RunSnoc(steps, step);
    CountsSnoc(steps, step, id, 0);
    if id in Run(INITIAL, steps).jobs { AttemptsStep(Run(INITIAL, steps), step, id); }
  }

  lemma {:induction false} NoClaimsBeforeCreation(steps: seq<Step>, id: Id)
    requires id !in Run(INITIAL, steps).jobs
    ensures Claims(steps, id) == 0
  {
    if steps != [] {
      var prior := steps[..|steps| - 1];
      if id in Run(INITIAL, prior).jobs { AttemptsStep(Run(INITIAL, prior), steps[|steps| - 1], id); }
      NoClaimsBeforeCreation(prior, id);
    }
  }

  /** Overlap can only lose claims, never invent them. */
  lemma {:induction false} DeficitNonNegative(steps: seq<Step>, id: Id)
    requires id in Run(INITIAL, steps).jobs
    ensures Deficit(steps, id) >= 0
    decreases |steps|
  {
    if steps != [] {
      var prior, step := steps[..|steps| - 1], steps[|steps| - 1];
      assert steps == prior + [step];
      if WritesBack(Run(INITIAL, prior), step, id) {
        DeficitAfterWriteBack(prior, step, id);
        DeficitNonNegative(prior[..CopiedAt(prior, step.actor)], id);
        ClaimsGrow(prior, CopiedAt(prior, step.actor), id);
      } else {
        DeficitElsewhere(prior, step, id);
        if id in Run(INITIAL, prior).jobs { DeficitNonNegative(prior, id); } else { NoClaimsBeforeCreation(prior, id); }
      }
    }
  }

  /**
   * After an accepted write-back the count is exact if and only if it was exact when the actor took its
   * copy and no claim of the job has succeeded since.
   */
  lemma {:induction false} WriteBackExactIff(steps: seq<Step>, step: Step, id: Id)
    requires WritesBack(Run(INITIAL, steps), step, id)
    ensures var n := CopiedAt(steps, step.actor);
      && n <= |steps| && id in Run(INITIAL, steps[..n]).jobs && id in Run(INITIAL, steps + [step]).jobs
      && (Exact(steps + [step], id) <==> Exact(steps[..n], id) && !Overlaps(steps, step.actor, id))
  {
    DeficitAfterWriteBack(steps, step, id);
    DeficitNonNegative(steps[..CopiedAt(steps, step.actor)], id);
    ClaimsGrow(steps, CopiedAt(steps, step.actor), id);
  }

  /** The count is exact at every point of the run at which the job exists. */
  ghost predicate AlwaysExact(steps: seq<Step>, id: Id) {
    forall n :: 0 <= n <= |steps| && id in Run(INITIAL, steps[..n]).jobs ==> Exact(steps[..n], id)
  }

  /** No accepted write-back of the job overlaps a claim of it. */
  ghost predicate NeverOverlaps(steps: seq<Step>, id: Id) {
    forall n :: 0 <= n < |steps| && WritesBack(Run(INITIAL, steps[..n]), steps[n], id)
      ==> CopiedAt(steps[..n], steps[n].actor) <= n && !Overlaps(steps[..n], steps[n].actor, id)
  }

  lemma {:induction false} AlwaysExactSnoc(steps: seq<Step>, step: Step, id: Id)
    ensures AlwaysExact(steps + [step], id) <==>
      AlwaysExact(steps, id) && (id in Run(INITIAL, steps + [step]).jobs ==> Exact(steps + [step], id))
  {
    var all := steps + [step];
    assert forall n :: 0 <= n <= |steps| ==> all[..n] == steps[..n];
    assert all[..|all|] == all;
  }

  lemma {:induction false} NeverOverlapsSnoc(steps: seq<Step>, step: Step, id: Id)
    ensures NeverOverlaps(steps + [step], id) <==>
      && NeverOverlaps(steps, id)
      && (WritesBack(Run(INITIAL, steps), step, id) ==>
            CopiedAt(steps, step.actor) <= |steps| && !Overlaps(steps, step.actor, id))
  {
    var all := steps + [step];
    assert forall n :: 0 <= n <= |steps| ==> all[..n] == steps[..n];
    assert forall n :: 0 <= n < |steps| ==> all[n] == steps[n];
    assert steps[..|steps|] == steps;
  }

  /**
   * Over every run, with or without recovery: the attempt count is exact throughout if and only if no
   * accepted write-back overlaps a claim.
   */
  lemma {:induction false} CountExactIffNoOverlap(steps: seq<Step>, id: Id)
    ensures AlwaysExact(steps, id) <==> NeverOverlaps(steps, id)
  {
    if steps != [] {
      var prior, step := steps[..|steps| - 1], steps[|steps| - 1];
      assert steps == prior + [step];
      CountExactIffNoOverlap(prior, id);
      AlwaysExactSnoc(prior, step, id);
      NeverOverlapsSnoc(prior, step, id);
      if AlwaysExact(prior, id) { NextExactIff(prior, step, id); }
    }
  }

  lemma {:induction false} NextExactIff(steps: seq<Step>, step: Step, id: Id)
    requires AlwaysExact(steps, id)
    ensures (id in Run(INITIAL, steps + [step]).jobs ==> Exact(steps + [step], id)) <==>
      (WritesBack(Run(INITIAL, steps), step, id) ==>
         CopiedAt(steps, step.actor) <= |steps| && !Overlaps(steps, step.actor, id))
  {
    if WritesBack(Run(INITIAL, steps), step, id) {
      WriteBackExactIff(steps, step, id);
    } else if id in Run(INITIAL, steps + [step]).jobs {
      DeficitElsewhere(steps, step, id);
      assert steps[..|steps|] == steps;
      if id !in Run(INITIAL, steps).jobs { NoClaimsBeforeCreation(steps, id); }
    }
  }

  /** Overlap happens: a pause that read a ready job before a whole attempt, and writes after it, loses the claim. */
  lemma {:induction false} StalePauseLosesAnAttempt(job: Job) returns (steps: seq<Step>)
    requires job.status == Ready
    ensures NoRecovery(steps) && |steps| == 6 && steps[3].Claim?
    ensures 0 in Run(INITIAL, steps[..5]).jobs && Run(INITIAL, steps[..5]).jobs[0].attempts == job.attempts + 1
    ensures 0 in Run(INITIAL, steps).jobs && Run(INITIAL, steps).jobs[0].attempts == job.attempts
  {
    var early := [Create(0, job), Read(1, 0, Move(Pause), 0), Select(2, 0, 0)];
    var finish := Finish(2, Ready, 0, None, None);
    steps := early + [Claim(2, 0)] + [finish] + [Write(1, 0)];
    assert early == [] + [Create(0, job)] + [Read(1, 0, Move(Pause), 0)] + [Select(2, 0, 0)];
    RunSnoc([], Create(0, job));
    RunSnoc([] + [Create(0, job)], Read(1, 0, Move(Pause), 0));
    RunSnoc([] + [Create(0, job)] + [Read(1, 0, Move(Pause), 0)], Select(2, 0, 0));
    RunSnoc(early, Claim(2, 0));
    RunSnoc(early + [Claim(2, 0)], finish);
    RunSnoc(early + [Claim(2, 0)] + [finish], Write(1, 0));
    assert steps[..5] == early + [Claim(2, 0)] + [finish];
  }
}
