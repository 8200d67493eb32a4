/**
 * The serial model of jobs against the interleaved one: every run of whole calls is a run of transactions
 * in which nobody overlaps, so what holds of all interleavings holds of the serial store's rows.
 */
module JobSerial {
  import opened Sequences
  import opened JobAuthority
  import Books = JobBooks
  import Race = JobExclusion

  /** Both models store the same rows, and nobody is between two transactions. */
  ghost predicate InStep(b: Books.State, s: Race.State) { s.jobs == b.jobs && s.actors == map[] }

  /** `steps` takes the interleaved store to where `t` takes the serial one. */
  ghost predicate Reaches(s: Race.State, steps: seq<Race.Step>, t: Books.State) { InStep(t, Race.Run(s, steps)) }

  lemma {:induction false} RunAppend(s: Race.State, some: seq<Race.Step>, more: seq<Race.Step>)
    ensures Race.Run(s, some + more) == Race.Run(Race.Run(s, some), more)
  {
    if more == [] {
      assert some + more == some;
    } else {
      RunAppend(s, some, more[..|more| - 1]);
      assert (some + more)[..|some + more| - 1] == some + more[..|more| - 1];
    }
  }

  lemma {:induction false} RunTwo(s: Race.State, first: Race.Step, second: Race.Step)
    ensures Race.Run(s, [first, second]) == Race.Next(Race.Next(s, first), second)
  {
    assert [first, second][..1] == [first] && [first][..0] == [];
    assert Race.Run(s, [first]) == Race.Next(s, first);
  }

  /** A row read and written back with nothing in between. */
  lemma {:induction false} ReadThenWrite(s: Race.State, id: Id, call: Race.Call, now: Instant)
    requires s.actors == map[] && id in s.jobs && s.jobs[id].status in Race.Expected(call)
    requires call.Bind? ==> s.jobs[id].spec.plan.Some? && call.approval.Matches(s.jobs[id].spec.plan.value, now)
    ensures Race.Run(s, [Race.Read(0, id, call, now), Race.Write(0, now)])
         == Race.State(s.jobs[id := Race.Written(s.jobs[id], call, now)], map[])
  {
    RunTwo(s, Race.Read(0, id, call, now), Race.Write(0, now));
    assert map[0 := Race.Calling(id, s.jobs[id], call)] - {0} == map[];
  }

  /** Whatever an execution does, it finishes the claimed job's row once, or leaves it to be recovered. */
  lemma {:induction false} ExecutionFinishesOnce(
    b: Books.State, id: Id, execution: Books.Execution, now: Instant)
    returns (target: Status, retryAt: Option<Instant>, checkpointId: Option<Id>)
    requires id in b.jobs && b.jobs[id].status == Running
    ensures Race.Finishing(target)
    ensures var t := Books.Executed(b, id, b.jobs[id], execution, now);
      || t.jobs == b.jobs
      || t.jobs == b.jobs[id := b.jobs[id].(
           status := target, updatedAt := now, nextRetryAt := retryAt, checkpointId := checkpointId)]
  {
    var job := b.jobs[id];
    target, retryAt, checkpointId := Failed, job.nextRetryAt, job.checkpointId;
    match execution
    case Yields(checkpoint) => target, checkpointId := Ready, Some(checkpoint.checkpointId);
    case Unverifiable => target := Indeterminate;
    case Finishes(verification) =>
      target := if verification.Verified? then Completed
                else if verification.VerifiedWithWarnings? then CompletedWithWarnings else Indeterminate;
    case Errors(_, code, transient) =>
      if Books.Retryable(job, code, transient) && 1 <= job.attempts {
        target, retryAt := RetryWait, Some(now + job.spec.retry.Delay(job.attempts));
      }
    case Crashes(_) =>
  }

  /** A claim directly followed by the finishing write, or by a crash. */
  lemma {:induction false} ClaimThenFinish(
    s: Race.State, id: Id, now: Instant, last: Race.Step)
    requires s.actors == map[] && id in s.jobs && s.jobs[id].Claimable(now)
    requires last == Race.Crash(0) || (last.Finish? && last.actor == 0 && Race.Finishing(last.target))
    ensures Race.Run(s, [Race.Select(0, id, now), Race.Claim(0, now)] + [last]) == Race.State(
      s.jobs[id := if last.Crash? then Claimed(s.jobs[id], now) else Claimed(s.jobs[id], now).(
        status := last.target, updatedAt := last.now, nextRetryAt := last.retryAt, checkpointId := last.checkpointId)],
      map[])
  {
    var claim := [Race.Select(0, id, now), Race.Claim(0, now)];
    var row := Claimed(s.jobs[id], now);
    RunTwo(s, Race.Select(0, id, now), Race.Claim(0, now));
    var held := Race.Run(s, claim);
    assert held == Race.State(s.jobs[id := row], map[0 := Race.Holding(id, row)]);
    assert (claim + [last])[..2] == claim;
    assert held.actors - {0} == map[];
  }

  lemma {:induction false} BlockInSteps(b: Books.State, s: Race.State, id: Id, now: Instant)
    returns (steps: seq<Race.Step>)
    requires InStep(b, s) && id in b.jobs && b.jobs[id].status in {Ready, RetryWait}
    ensures Reaches(s, steps, Books.BlockedJob(b, id, now))
  {
    steps := [Race.Read(0, id, Race.Block, now), Race.Write(0, now)];
    ReadThenWrite(s, id, Race.Block, now);
  }

  lemma {:induction false} ExecuteInSteps(
    b: Books.State, s: Race.State, claimed: Books.State, id: Id, now: Instant, execution: Books.Execution)
    returns (steps: seq<Race.Step>)
    requires InStep(b, s) && id in b.jobs && b.jobs[id].Claimable(now)
    requires claimed.jobs == b.jobs[id := Claimed(b.jobs[id], now)]
    ensures Reaches(s, steps, Books.Executed(claimed, id, claimed.jobs[id], execution, now))
  {
    var target, retryAt, checkpointId := ExecutionFinishesOnce(claimed, id, execution, now);
    var t := Books.Executed(claimed, id, claimed.jobs[id], execution, now);
    var last := if t.jobs == claimed.jobs then Race.Crash(0) else Race.Finish(0, target, now, retryAt, checkpointId);
    steps := [Race.Select(0, id, now), Race.Claim(0, now)] + [last];
    ClaimThenFinish(s, id, now, last);
  }

  lemma {:induction false} ServeInSteps(
    b: Books.State, s: Race.State, id: Id, worker: Worker, now: Instant, execution: Books.Execution)
    returns (steps: seq<Race.Step>)
    requires InStep(b, s)
    ensures Reaches(s, steps, Books.Served(b, id, worker, now, execution))
  {
    steps := [];
    if id in b.jobs && b.jobs[id].Claimable(now) {
      match Check(id, b.jobs[id], Books.CheckpointOf(b, id), worker, now)
      case Raises =>
      case Refused(_) => steps := BlockInSteps(b, s, id, now);
      case Cleared(_) =>
        var event := Books.Event(id, Books.JobClaimed, Some(b.jobs[id].status), Some(Running));
        var claimed := Books.ClaimTx(b, id, now, event);
        if claimed.Some? {
          steps := ExecuteInSteps(b, s, claimed.value, id, now, execution);
        }
    }
  }

  lemma {:induction false} CallInSteps(b: Books.State, s: Race.State, call: Books.Call) returns (steps: seq<Race.Step>)
    requires InStep(b, s)
    ensures Reaches(s, steps, Books.Apply(b, call))
  {
    steps := [];
    match call
    case CreateJob(id, job) =>
      steps := [Race.Create(id, job)];
      assert steps[..0] == [];
    case BindApproval(id, approval, now) =>
      if Books.Bound(b, id, approval, now).Some? {
        steps := [Race.Read(0, id, Race.Bind(approval), now), Race.Write(0, now)];
        ReadThenWrite(s, id, Race.Bind(approval), now);
      }
    case Move(id, simple, now) =>
      if Books.SimplyMoved(b, id, simple, now).Some? {
        steps := [Race.Read(0, id, Race.Move(simple), now), Race.Write(0, now)];
        ReadThenWrite(s, id, Race.Move(simple), now);
      }
    case RecoverInterrupted(id, now) =>
      if Books.Recovered(b, id, now).Some? {
        steps := [Race.Read(0, id, Race.Recover, now), Race.Write(0, now)];
        ReadThenWrite(s, id, Race.Recover, now);
      }
    case Serve(id, worker, now, execution) =>
      steps := ServeInSteps(b, s, id, worker, now, execution);
  }

  /** Every serial run of calls, with its crashes, is an interleaving that stores the same job rows. */
  lemma {:induction false} SerialRunsAreInterleavings(calls: seq<Books.Call>) returns (steps: seq<Race.Step>)
    ensures Reaches(Race.INITIAL, steps, Books.Run(Books.EMPTY, calls))
  {
    steps := [];
    if calls != [] {
      var prior := SerialRunsAreInterleavings(calls[..|calls| - 1]);
      var more := CallInSteps(Books.Run(Books.EMPTY, calls[..|calls| - 1]), Race.Run(Race.INITIAL, prior), calls[|calls| - 1]);
      RunAppend(Race.INITIAL, prior, more);
      steps := prior + more;
    }
  }
}
