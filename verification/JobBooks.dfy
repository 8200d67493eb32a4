/**
 * The job store's books under serial calls: jobs/storage.py, JobService in jobs/service.py and
 * LocalJobWorker in jobs/worker.py. Each public call runs to its end, or to a crash, before the next.
 */
module JobBooks {
  import opened Sequences
  import opened JobAuthority
  import Policy

  datatype AttemptOutcome = ByCheckpoint | ByCompletion | ByRetry | ByFailure | ByIndeterminate | ByInterruption

  /** Attempt rows of one job, by attempt number; an open row has no outcome. */
  type Attempts = map<int, Option<AttemptOutcome>>

  datatype EventKind =
    | JobCreated | PlanBound | ApprovalBound | JobPaused | JobCancelled | JobResumed | JobClaimed | JobBlocked
    | CheckpointSaved | VerificationStarted | VerificationCompleted | JobCompleted | RetryScheduled | JobFailed

  datatype Event = Event(job: Id, kind: EventKind, previous: Option<Status>, next: Option<Status>)

  datatype State = State(
    jobs: map<Id, Job>, attempts: map<Id, Attempts>, checkpoints: map<Id, Checkpoint>, audit: seq<Event>)

  function RowsOf(s: State, id: Id): Attempts { if id in s.attempts then s.attempts[id] else map[] }

  function CheckpointOf(s: State, id: Id): Option<Checkpoint> {
    if id in s.checkpoints then Some(s.checkpoints[id]) else None
  }

  // ----- Transactions; None is an exception, which rolls back -----

  function InsertTx(s: State, id: Id, job: Job, event: Event): Option<State> {
    if id in s.jobs then None else Some(s.(jobs := s.jobs[id := job], audit := s.audit + [event]))
  }

  function AppendTx(s: State, event: Event): State { s.(audit := s.audit + [event]) }

  /** An UPDATE of an attempt row that does not exist changes nothing. */
  function Close(rows: Attempts, number: int, outcome: AttemptOutcome): Attempts {
    if number in rows then rows[number := Some(outcome)] else rows
  }

  function CloseAttempt(s: State, id: Id, number: int, outcome: AttemptOutcome): State {
    s.(attempts := s.attempts[id := Close(RowsOf(s, id), number, outcome)])
  }

  function TransitionTx(s: State, id: Id, job: Job, expected: set<Status>, event: Event, outcome: Option<AttemptOutcome>)
    : Option<State>
  {
    if id !in s.jobs || s.jobs[id].status !in expected then None
    else
      var updated := s.(jobs := s.jobs[id := job]);
      var closed := if outcome.Some? then CloseAttempt(updated, id, job.attempts, outcome.value) else updated;
      Some(AppendTx(closed, event))
  }

  /** The claim transaction; the attempt table's primary key refuses a number already used. */
  function ClaimTx(s: State, id: Id, now: Instant, event: Event): Option<State> {
    if id !in s.jobs || !s.jobs[id].Claimable(now) then None
    else
      var job := Claimed(s.jobs[id], now);
      if job.attempts in RowsOf(s, id) then None
      else Some(AppendTx(
        s.(jobs := s.jobs[id := job], attempts := s.attempts[id := RowsOf(s, id)[job.attempts := None]]), event))
  }

  predicate TakenElsewhere(s: State, id: Id, checkpoint: Checkpoint) {
    exists other :: other in s.checkpoints && other != id && s.checkpoints[other].checkpointId == checkpoint.checkpointId
  }

  /** Checkpoint identifiers are unique over all jobs; a job's own checkpoint is replaced. */
  function SaveTx(s: State, id: Id, job: Job, checkpoint: Checkpoint, event: Event): Option<State> {
    if id !in s.jobs || s.jobs[id].status != Running || job.checkpointId != Some(checkpoint.checkpointId) then None
    else if TakenElsewhere(s, id, checkpoint) then None
    else
      var updated := s.(checkpoints := s.checkpoints[id := checkpoint], jobs := s.jobs[id := job]);
      Some(AppendTx(CloseAttempt(updated, id, job.attempts, ByCheckpoint), event))
  }

  function OrElse(result: Option<State>, otherwise: State): State {
    if result.Some? then result.value else otherwise
  }

  // ----- The service -----

  function SimpleKind(call: Simple): EventKind {
    match call case Pause => JobPaused case Cancel => JobCancelled case Resume => JobResumed
  }

  function Created(s: State, id: Id, job: Job): Option<State> {
    if job.status !in {Planned, AwaitingApproval, Ready} then None
    else
      var inserted := InsertTx(s, id, job, Event(id, JobCreated, None, Some(job.status)));
      if inserted.Some? && job.spec.plan.Some?
      then Some(AppendTx(inserted.value, Event(id, PlanBound, None, None))) else inserted
  }

  function SimplyMoved(s: State, id: Id, call: Simple, now: Instant): Option<State> {
    if id !in s.jobs || s.jobs[id].status !in Allowed(call) then None
    else
      TransitionTx(s, id, s.jobs[id].(status := Target(call), updatedAt := now), Allowed(call),
                 Event(id, SimpleKind(call), Some(s.jobs[id].status), Some(Target(call))), None)
  }

  function Bound(s: State, id: Id, approval: Approval, now: Instant): Option<State> {
    if id !in s.jobs || s.jobs[id].status != AwaitingApproval || s.jobs[id].spec.plan.None?
       || !approval.Matches(s.jobs[id].spec.plan.value, now) then None
    else
      TransitionTx(s, id, s.jobs[id].(approval := Some(approval), status := Ready, updatedAt := now), {AwaitingApproval},
                 Event(id, ApprovalBound, Some(AwaitingApproval), Some(Ready)), None)
  }

  function Recovered(s: State, id: Id, now: Instant): Option<State> {
    if id !in s.jobs || s.jobs[id].status != Running || id !in s.checkpoints
       || s.jobs[id].checkpointId != Some(s.checkpoints[id].checkpointId) then None
    else
      TransitionTx(s, id, s.jobs[id].(status := Ready, updatedAt := now), {Running},
                 Event(id, JobResumed, Some(Running), Some(Ready)), Some(ByInterruption))
  }

  // ----- The worker -----

  datatype Verification = Verified | VerifiedWithWarnings | VerificationFailed | VerificationIndeterminate

  /** How far an execution got through verification before it was cut short. */
  datatype Stage = BeforeVerification | DuringVerification | AfterVerification

  /** What a connector does with a claimed job; `Crashes` is any exception that is not a connector error. */
  datatype Execution =
    | Yields(checkpoint: Checkpoint)
    | Unverifiable
    | Finishes(verification: Verification)
    | Errors(stage: Stage, code: Id, transient: bool)
    | Crashes(stage: Stage)

  function Verifying(s: State, id: Id, stage: Stage): State {
    var started := AppendTx(s, Event(id, VerificationStarted, Some(Running), Some(Running)));
    match stage
    case BeforeVerification => s
    case DuringVerification => started
    case AfterVerification => AppendTx(started, Event(id, VerificationCompleted, Some(Running), Some(Running)))
  }

  /** The write that ends an attempt. */
  function Ended(s: State, id: Id, job: Job, kind: EventKind, outcome: AttemptOutcome): State {
    OrElse(TransitionTx(s, id, job, {Running}, Event(id, kind, Some(Running), Some(job.status)), Some(outcome)), s)
  }

  predicate Retryable(job: Job, code: Id, transient: bool) {
    transient && code in job.spec.retry.retryableCodes && job.attempts < job.spec.retry.maxAttempts
  }

  function HandleError(s: State, id: Id, job: Job, code: Id, transient: bool, now: Instant): State {
    if Retryable(job, code, transient) && 1 <= job.attempts then
      Ended(s, id, job.(status := RetryWait, nextRetryAt := Some(now + job.spec.retry.Delay(job.attempts)), updatedAt := now),
            RetryScheduled, ByRetry)
    else Ended(s, id, job.(status := Failed, updatedAt := now), JobFailed, ByFailure)
  }

  /** _execute and the error handler around it, on the claimed job. */
  function Executed(s: State, id: Id, job: Job, execution: Execution, now: Instant): State {
    match execution
    case Yields(checkpoint) =>
      var yielded := job.(status := Ready, checkpointId := Some(checkpoint.checkpointId), updatedAt := now);
      OrElse(SaveTx(s, id, yielded, checkpoint, Event(id, CheckpointSaved, Some(Running), Some(Ready))), s)
    case Unverifiable => Ended(s, id, job.(status := Indeterminate, updatedAt := now), JobFailed, ByIndeterminate)
    case Finishes(verification) =>
      var checked := Verifying(s, id, AfterVerification);
      (match verification
       case Verified => Ended(checked, id, job.(status := Completed, updatedAt := now), JobCompleted, ByCompletion)
       case VerifiedWithWarnings =>
         Ended(checked, id, job.(status := CompletedWithWarnings, updatedAt := now), JobCompleted, ByCompletion)
       case _ => Ended(checked, id, job.(status := Indeterminate, updatedAt := now), JobFailed, ByIndeterminate))
    case Errors(stage, code, transient) => HandleError(Verifying(s, id, stage), id, job, code, transient, now)
    case Crashes(stage) => Verifying(s, id, stage)
  }

  function BlockedJob(s: State, id: Id, now: Instant): State
    requires id in s.jobs
  {
    OrElse(TransitionTx(s, id, s.jobs[id].(status := Blocked, updatedAt := now), {Ready, RetryWait},
                      Event(id, JobBlocked, Some(s.jobs[id].status), Some(Blocked)), None), s)
  }

  /** run_next's treatment of the candidate it looks at first. */
  function Served(s: State, id: Id, worker: Worker, now: Instant, execution: Execution): State {
    if id !in s.jobs || !s.jobs[id].Claimable(now) then s
    else
      match Check(id, s.jobs[id], CheckpointOf(s, id), worker, now)
      case Raises => s
      case Refused(_) => BlockedJob(s, id, now)
      case Cleared(_) =>
        var claimed := ClaimTx(s, id, now, Event(id, JobClaimed, Some(s.jobs[id].status), Some(Running)));
        if claimed.None? then s else Executed(claimed.value, id, claimed.value.jobs[id], execution, now)
  }

  // ----- Runs -----

  datatype Call =
    | CreateJob(id: Id, job: Job)
    | BindApproval(id: Id, approval: Approval, now: Instant)
    | Move(id: Id, simple: Simple, now: Instant)
    | RecoverInterrupted(id: Id, now: Instant)
    | Serve(id: Id, worker: Worker, now: Instant, execution: Execution)

  function Apply(s: State, call: Call): State {
    match call
    case CreateJob(id, job) => OrElse(Created(s, id, job), s)
    case BindApproval(id, approval, now) => OrElse(Bound(s, id, approval, now), s)
    case Move(id, simple, now) => OrElse(SimplyMoved(s, id, simple, now), s)
    case RecoverInterrupted(id, now) => OrElse(Recovered(s, id, now), s)
    case Serve(id, worker, now, execution) => Served(s, id, worker, now, execution)
  }

  function Run(s: State, calls: seq<Call>): State {
    if calls == [] then s else Apply(Run(s, calls[..|calls| - 1]), calls[|calls| - 1])
  }

  const EMPTY: State := State(map[], map[], map[], [])

  /** Jobs enter valid and with no attempts made. */
  predicate Fresh(call: Call) { call.CreateJob? ==> call.job.Valid() && call.job.attempts == 0 && call.job.checkpointId == None }

  ghost predicate AllFresh(calls: seq<Call>) { forall i :: 0 <= i < |calls| ==> Fresh(calls[i]) }

  // ----- Reading the audit log back -----

  /** Status as told by the log; `Broken` when an event does not start where the last one ended. */
  datatype Trail = At(status: Option<Status>) | Broken

  /** What the log says of one job: its status, how often it was claimed, which attempts were to be retried. */
  datatype Tally = Tally(trail: Trail, claims: int, retried: seq<int>)

  function Follow(tally: Tally, e: Event): Tally {
    var trail :=
      if e.next.None? then tally.trail
      else if tally.trail == At(e.previous) then At(e.next) else Broken;
    var claims := if e.kind == JobClaimed then tally.claims + 1 else tally.claims;
    Tally(trail, claims, if e.kind == RetryScheduled then tally.retried + [claims] else tally.retried)
  }

  function Replay(audit: seq<Event>, id: Id): Tally {
    if audit == [] then Tally(At(None), 0, [])
    else
      var before := Replay(audit[..|audit| - 1], id);
      var e := audit[|audit| - 1];
      if e.job == id then Follow(before, e) else before
  }

  lemma {:induction false} ReplaySnoc(audit: seq<Event>, e: Event, id: Id)
    ensures Replay(audit + [e], id) == if e.job == id then Follow(Replay(audit, id), e) else Replay(audit, id)
  {
    assert (audit + [e])[..|audit + [e]| - 1] == audit;
  }

  // ----- The books balance -----

  /** Attempt numbers up to `n` that ended in a retry, in order. */
  function RetriedRows(rows: Attempts, n: int): seq<int>
    decreases n
  {
    if n < 1 then []
    else RetriedRows(rows, n - 1) + if n in rows && rows[n] == Some(ByRetry) then [n] else []
  }

  /** Attempt rows are 1..attempts, all closed but the last, which is open exactly while the job runs. */
  ghost predicate RowsBalance(job: Job, rows: Attempts) {
    && 0 <= job.attempts
    && (forall n :: n in rows <==> 1 <= n <= job.attempts)
    && (forall n :: 1 <= n < job.attempts ==> rows[n].Some?)
    && (job.attempts >= 1 ==> (rows[job.attempts].None? <==> job.status == Running))
    && (job.status == Running ==> job.attempts >= 1)
  }

  ghost predicate RetriesBalance(job: Job, rows: Attempts) {
    && job.spec.retry.Valid()
    && (forall n :: n in rows && rows[n] == Some(ByRetry) ==> n < job.spec.retry.maxAttempts)
    && (job.status == RetryWait ==>
          && job.attempts in rows && rows[job.attempts] == Some(ByRetry) && job.attempts >= 1
          && job.nextRetryAt == Some(job.updatedAt + job.spec.retry.Delay(job.attempts)))
  }

  ghost predicate LogAgrees(job: Job, rows: Attempts, tally: Tally) {
    && tally.trail == At(Some(job.status))
    && tally.claims == job.attempts
    && tally.retried == RetriedRows(rows, job.attempts)
  }

  ghost predicate Balanced(job: Job, rows: Attempts, tally: Tally) {
    RowsBalance(job, rows) && RetriesBalance(job, rows) && LogAgrees(job, rows, tally)
  }

  /** Everything the store holds about one job. */
  datatype View = View(job: Option<Job>, rows: Attempts, checkpoint: Option<Checkpoint>, tally: Tally)

  function ViewOf(s: State, id: Id): View {
    View(if id in s.jobs then Some(s.jobs[id]) else None, RowsOf(s, id), CheckpointOf(s, id), Replay(s.audit, id))
  }

  const NOTHING: View := View(None, map[], None, Tally(At(None), 0, []))

  ghost predicate Good(v: View) {
    if v.job.None? then v == NOTHING
    else
      && Balanced(v.job.value, v.rows, v.tally)
      && v.job.value.checkpointId == if v.checkpoint.Some? then Some(v.checkpoint.value.checkpointId) else None
  }

  ghost predicate BooksBalance(s: State) { forall id :: Good(ViewOf(s, id)) }

  // ----- Each transaction touches one job -----

  ghost predicate TouchesOnly(s: State, t: State, id: Id) { forall other :: other != id ==> ViewOf(t, other) == ViewOf(s, other) }

  lemma {:induction false} AppendView(s: State, e: Event, id: Id)
    ensures ViewOf(AppendTx(s, e), id)
      == if e.job == id then ViewOf(s, id).(tally := Follow(Replay(s.audit, id), e)) else ViewOf(s, id)
  {
    ReplaySnoc(s.audit, e, id);
  }

  lemma {:induction false} AppendTouches(s: State, e: Event)
    ensures TouchesOnly(s, AppendTx(s, e), e.job)
    ensures ViewOf(AppendTx(s, e), e.job) == ViewOf(s, e.job).(tally := Follow(Replay(s.audit, e.job), e))
  {
    AppendView(s, e, e.job);
    forall other | other != e.job ensures ViewOf(AppendTx(s, e), other) == ViewOf(s, other) {
      AppendView(s, e, other);
    }
  }

  lemma {:induction false} InsertTouches(s: State, id: Id, job: Job, e: Event)
    requires e.job == id && id !in s.jobs
    ensures var t := InsertTx(s, id, job, e).value;
      TouchesOnly(s, t, id) && ViewOf(t, id) == ViewOf(s, id).(job := Some(job), tally := Follow(Replay(s.audit, id), e))
  {
    var inserted := s.(jobs := s.jobs[id := job]);
    AppendTouches(inserted, e);
    forall other | other != id ensures ViewOf(AppendTx(inserted, e), other) == ViewOf(s, other) {
      assert ViewOf(inserted, other) == ViewOf(s, other);
    }
  }

  lemma {:induction false} TransitionTouches(
    s: State, id: Id, job: Job, expected: set<Status>, e: Event, outcome: Option<AttemptOutcome>)
    requires e.job == id && id in s.jobs && s.jobs[id].status in expected
    ensures var t := TransitionTx(s, id, job, expected, e, outcome).value;
      && TouchesOnly(s, t, id)
      && ViewOf(t, id) == View(
           Some(job), if outcome.Some? then Close(RowsOf(s, id), job.attempts, outcome.value) else RowsOf(s, id),
           CheckpointOf(s, id), Follow(Replay(s.audit, id), e))
  {
    var updated := s.(jobs := s.jobs[id := job]);
    var closed := if outcome.Some? then CloseAttempt(updated, id, job.attempts, outcome.value) else updated;
    AppendTouches(closed, e);
    forall other | other != id ensures ViewOf(AppendTx(closed, e), other) == ViewOf(s, other) {
      assert ViewOf(closed, other) == ViewOf(s, other);
    }
  }

  lemma {:induction false} ClaimTouches(s: State, id: Id, now: Instant, e: Event)
    requires e.job == id && ClaimTx(s, id, now, e).Some?
    ensures var t := ClaimTx(s, id, now, e).value; var job := Claimed(s.jobs[id], now);
      && TouchesOnly(s, t, id)
      && ViewOf(t, id) == View(
           Some(job), RowsOf(s, id)[job.attempts := None], CheckpointOf(s, id), Follow(Replay(s.audit, id), e))
  {
    var job := Claimed(s.jobs[id], now);
    var begun := s.(jobs := s.jobs[id := job], attempts := s.attempts[id := RowsOf(s, id)[job.attempts := None]]);
    AppendTouches(begun, e);
    forall other | other != id ensures ViewOf(AppendTx(begun, e), other) == ViewOf(s, other) {
      assert ViewOf(begun, other) == ViewOf(s, other);
    }
  }

  lemma {:induction false} SaveTouches(s: State, id: Id, job: Job, checkpoint: Checkpoint, e: Event)
    requires e.job == id && SaveTx(s, id, job, checkpoint, e).Some?
    ensures var t := SaveTx(s, id, job, checkpoint, e).value;
      && TouchesOnly(s, t, id)
      && ViewOf(t, id) == View(
           Some(job), Close(RowsOf(s, id), job.attempts, ByCheckpoint), Some(checkpoint), Follow(Replay(s.audit, id), e))
  {
    var updated := s.(checkpoints := s.checkpoints[id := checkpoint], jobs := s.jobs[id := job]);
    var closed := CloseAttempt(updated, id, job.attempts, ByCheckpoint);
    AppendTouches(closed, e);
    forall other | other != id ensures ViewOf(AppendTx(closed, e), other) == ViewOf(s, other) {
      assert ViewOf(closed, other) == ViewOf(s, other);
    }
  }

  lemma {:induction false} BooksAfter(s: State, t: State, id: Id)
    requires BooksBalance(s) && TouchesOnly(s, t, id) && Good(ViewOf(t, id))
    ensures BooksBalance(t)
  {
    forall other ensures Good(ViewOf(t, other)) {
      if other != id { assert ViewOf(t, other) == ViewOf(s, other); }
    }
  }

  // ----- Balance of one job -----

  /** The listing of retried attempts looks only at rows up to its bound. */
  lemma {:induction false} RetriedRowsCongruent(a: Attempts, b: Attempts, n: int)
    requires forall k :: 1 <= k <= n ==> (k in a <==> k in b) && (k in a ==> a[k] == b[k])
    ensures RetriedRows(a, n) == RetriedRows(b, n)
    decreases n
  {
    if n >= 1 { RetriedRowsCongruent(a, b, n - 1); }
  }

  predicate Chains(e: Event, from: Status, to: Status) { e.previous == Some(from) && e.next == Some(to) }

  /** A write that ends no attempt and starts none, on a job that is not running. */
  lemma {:induction false} MoveBalances(job: Job, moved: Job, rows: Attempts, tally: Tally, e: Event)
    requires Balanced(job, rows, tally) && job.status != Running && Chains(e, job.status, moved.status)
    requires moved.status !in {Running, RetryWait} && e.kind !in {JobClaimed, RetryScheduled}
    requires moved.spec == job.spec && moved.attempts == job.attempts
    ensures Balanced(moved, rows, Follow(tally, e))
  {
  }

  lemma {:induction false} VerifyingBalances(job: Job, rows: Attempts, tally: Tally, e: Event)
    requires Balanced(job, rows, tally) && Chains(e, job.status, job.status)
    requires e.kind in {VerificationStarted, VerificationCompleted}
    ensures Balanced(job, rows, Follow(tally, e))
  {
  }

  lemma {:induction false} ClaimBalances(job: Job, rows: Attempts, tally: Tally, e: Event, now: Instant)
    requires Balanced(job, rows, tally) && job.status != Running
    requires e.kind == JobClaimed && Chains(e, job.status, Running)
    ensures job.attempts + 1 !in rows
    ensures Balanced(Claimed(job, now), rows[job.attempts + 1 := None], Follow(tally, e))
  {
    RetriedRowsCongruent(rows, rows[job.attempts + 1 := None], job.attempts);
  }

  predicate ScheduledRetry(job: Job) {
    && 1 <= job.attempts < job.spec.retry.maxAttempts
    && job.nextRetryAt == Some(job.updatedAt + job.spec.retry.Delay(job.attempts))
  }

  /** A write that ends the running attempt. */
  lemma {:induction false} EndBalances(job: Job, ended: Job, rows: Attempts, tally: Tally, e: Event, outcome: AttemptOutcome)
    requires Balanced(job, rows, tally) && job.status == Running && Chains(e, Running, ended.status)
    requires ended.spec == job.spec && ended.attempts == job.attempts && ended.status != Running
    requires e.kind != JobClaimed && (e.kind == RetryScheduled <==> outcome == ByRetry)
    requires outcome == ByRetry <==> ended.status == RetryWait
    requires outcome == ByRetry ==> ScheduledRetry(ended)
    ensures Balanced(ended, Close(rows, job.attempts, outcome), Follow(tally, e))
  {
    RetriedRowsCongruent(rows, Close(rows, job.attempts, outcome), job.attempts - 1);
  }

  // ----- Each call keeps the books -----

  lemma {:induction false} CreateKeepsBooks(s: State, id: Id, job: Job)
    requires BooksBalance(s) && Fresh(CreateJob(id, job))
    ensures BooksBalance(Apply(s, CreateJob(id, job)))
  {
    if Created(s, id, job).Some? {
      var e := Event(id, JobCreated, None, Some(job.status));
      assert Good(ViewOf(s, id));
      InsertTouches(s, id, job, e);
      var t := InsertTx(s, id, job, e).value;
      BooksAfter(s, t, id);
      if job.spec.plan.Some? {
        AppendTouches(t, Event(id, PlanBound, None, None));
        BooksAfter(t, AppendTx(t, Event(id, PlanBound, None, None)), id);
      }
    }
  }

  lemma {:induction false} MoveKeepsBooks(s: State, id: Id, moved: Job, expected: set<Status>, e: Event)
    requires BooksBalance(s) && e.job == id && id in s.jobs && s.jobs[id].status in expected
    requires s.jobs[id].status != Running && Chains(e, s.jobs[id].status, moved.status)
    requires moved.status !in {Running, RetryWait} && e.kind !in {JobClaimed, RetryScheduled}
    requires moved.spec == s.jobs[id].spec && moved.attempts == s.jobs[id].attempts
    requires moved.checkpointId == s.jobs[id].checkpointId
    ensures BooksBalance(TransitionTx(s, id, moved, expected, e, None).value)
  {
    assert Good(ViewOf(s, id));
    MoveBalances(s.jobs[id], moved, RowsOf(s, id), Replay(s.audit, id), e);
    TransitionTouches(s, id, moved, expected, e, None);
    BooksAfter(s, TransitionTx(s, id, moved, expected, e, None).value, id);
  }

  lemma {:induction false} EndKeepsBooks(s: State, id: Id, ended: Job, e: Event, outcome: AttemptOutcome)
    requires BooksBalance(s) && e.job == id && id in s.jobs && s.jobs[id].status == Running
    requires Chains(e, Running, ended.status) && ended.status != Running
    requires ended.spec == s.jobs[id].spec && ended.attempts == s.jobs[id].attempts
    requires ended.checkpointId == s.jobs[id].checkpointId
    requires e.kind != JobClaimed && (e.kind == RetryScheduled <==> outcome == ByRetry)
    requires outcome == ByRetry <==> ended.status == RetryWait
    requires outcome == ByRetry ==> ScheduledRetry(ended)
    ensures BooksBalance(TransitionTx(s, id, ended, {Running}, e, Some(outcome)).value)
  {
    assert Good(ViewOf(s, id));
    EndBalances(s.jobs[id], ended, RowsOf(s, id), Replay(s.audit, id), e, outcome);
    TransitionTouches(s, id, ended, {Running}, e, Some(outcome));
    BooksAfter(s, TransitionTx(s, id, ended, {Running}, e, Some(outcome)).value, id);
  }

  /** A job that is running, as the worker that claimed it sees it. */
  ghost predicate Executing(s: State, id: Id, job: Job) {
    BooksBalance(s) && id in s.jobs && s.jobs[id] == job && job.status == Running
  }

  lemma {:induction false} OneEventVerifying(s: State, id: Id, job: Job, e: Event)
    requires Executing(s, id, job) && e.job == id && Chains(e, Running, Running)
    requires e.kind in {VerificationStarted, VerificationCompleted}
    ensures Executing(AppendTx(s, e), id, job)
  {
    assert Good(ViewOf(s, id));
    VerifyingBalances(job, RowsOf(s, id), Replay(s.audit, id), e);
    AppendTouches(s, e);
    BooksAfter(s, AppendTx(s, e), id);
  }

  lemma {:induction false} VerifyingKeepsBooks(s: State, id: Id, job: Job, stage: Stage)
    requires Executing(s, id, job)
    ensures Executing(Verifying(s, id, stage), id, job)
  {
    var started := Event(id, VerificationStarted, Some(Running), Some(Running));
    if stage != BeforeVerification {
      OneEventVerifying(s, id, job, started);
      OneEventVerifying(AppendTx(s, started), id, job, Event(id, VerificationCompleted, Some(Running), Some(Running)));
    }
  }

  lemma {:induction false} EndedKeepsBooks(s: State, id: Id, job: Job, ended: Job, kind: EventKind, outcome: AttemptOutcome)
    requires Executing(s, id, job)
    requires ended == job.(status := ended.status, updatedAt := ended.updatedAt)
    requires Terminal(ended.status) && kind !in {JobClaimed, RetryScheduled} && outcome != ByRetry
    ensures BooksBalance(Ended(s, id, ended, kind, outcome))
  {
    EndKeepsBooks(s, id, ended, Event(id, kind, Some(Running), Some(ended.status)), outcome);
  }

  lemma {:induction false} ErrorKeepsBooks(s: State, id: Id, job: Job, code: Id, transient: bool, now: Instant)
    requires Executing(s, id, job)
    ensures BooksBalance(HandleError(s, id, job, code, transient, now))
  {
    assert Good(ViewOf(s, id));
    if Retryable(job, code, transient) {
      var ended := job.(
        status := RetryWait, nextRetryAt := Some(now + job.spec.retry.Delay(job.attempts)), updatedAt := now);
      EndKeepsBooks(s, id, ended, Event(id, RetryScheduled, Some(Running), Some(RetryWait)), ByRetry);
    } else {
      EndedKeepsBooks(s, id, job, job.(status := Failed, updatedAt := now), JobFailed, ByFailure);
    }
  }

  lemma {:induction false} YieldKeepsBooks(s: State, id: Id, job: Job, checkpoint: Checkpoint, now: Instant)
    requires Executing(s, id, job)
    ensures BooksBalance(Executed(s, id, job, Yields(checkpoint), now))
  {
    var yielded := job.(status := Ready, checkpointId := Some(checkpoint.checkpointId), updatedAt := now);
    var e := Event(id, CheckpointSaved, Some(Running), Some(Ready));
    var saved := SaveTx(s, id, yielded, checkpoint, e);
    if saved.Some? {
      assert Good(ViewOf(s, id));
      EndBalances(job, yielded, RowsOf(s, id), Replay(s.audit, id), e, ByCheckpoint);
      SaveTouches(s, id, yielded, checkpoint, e);
      BooksAfter(s, saved.value, id);
    }
  }

  lemma {:induction false} ExecutionKeepsBooks(s: State, id: Id, job: Job, execution: Execution, now: Instant)
    requires Executing(s, id, job)
    ensures BooksBalance(Executed(s, id, job, execution, now))
  {
    match execution
    case Yields(checkpoint) => YieldKeepsBooks(s, id, job, checkpoint, now);
    case Unverifiable => EndedKeepsBooks(s, id, job, job.(status := Indeterminate, updatedAt := now), JobFailed, ByIndeterminate);
    case Finishes(verification) =>
      VerifyingKeepsBooks(s, id, job, AfterVerification);
      var checked := Verifying(s, id, AfterVerification);
      EndedKeepsBooks(checked, id, job, job.(status := Completed, updatedAt := now), JobCompleted, ByCompletion);
      EndedKeepsBooks(checked, id, job, job.(status := CompletedWithWarnings, updatedAt := now), JobCompleted, ByCompletion);
      EndedKeepsBooks(checked, id, job, job.(status := Indeterminate, updatedAt := now), JobFailed, ByIndeterminate);
    case Errors(stage, code, transient) =>
      VerifyingKeepsBooks(s, id, job, stage);
      ErrorKeepsBooks(Verifying(s, id, stage), id, job, code, transient, now);
    case Crashes(stage) => VerifyingKeepsBooks(s, id, job, stage);
  }

  lemma {:induction false} ClaimKeepsBooks(s: State, id: Id, now: Instant, e: Event)
    requires BooksBalance(s) && e.job == id && id in s.jobs && s.jobs[id].Claimable(now)
    requires e.kind == JobClaimed && Chains(e, s.jobs[id].status, Running)
    ensures ClaimTx(s, id, now, e).Some?
    ensures Executing(ClaimTx(s, id, now, e).value, id, Claimed(s.jobs[id], now))
  {
    assert Good(ViewOf(s, id));
    ClaimBalances(s.jobs[id], RowsOf(s, id), Replay(s.audit, id), e, now);
    ClaimTouches(s, id, now, e);
    BooksAfter(s, ClaimTx(s, id, now, e).value, id);
  }

  lemma {:induction false} ServeKeepsBooks(s: State, id: Id, worker: Worker, now: Instant, execution: Execution)
    requires BooksBalance(s)
    ensures BooksBalance(Served(s, id, worker, now, execution))
  {
    if id in s.jobs && s.jobs[id].Claimable(now) {
      var verdict := Check(id, s.jobs[id], CheckpointOf(s, id), worker, now);
      if verdict.Refused? {
        var blocked := s.jobs[id].(status := Blocked, updatedAt := now);
        MoveKeepsBooks(s, id, blocked, {Ready, RetryWait}, Event(id, JobBlocked, Some(s.jobs[id].status), Some(Blocked)));
      } else if verdict.Cleared? {
        var e := Event(id, JobClaimed, Some(s.jobs[id].status), Some(Running));
        ClaimKeepsBooks(s, id, now, e);
        ExecutionKeepsBooks(ClaimTx(s, id, now, e).value, id, Claimed(s.jobs[id], now), execution, now);
      }
    }
  }

  lemma {:induction false} ServiceKeepsBooks(s: State, call: Call)
    requires BooksBalance(s) && (call.BindApproval? || call.Move? || call.RecoverInterrupted?)
    ensures BooksBalance(Apply(s, call))
  {
    var id := call.id;
    match call
    case BindApproval(_, approval, now) =>
      if Bound(s, id, approval, now).Some? {
        MoveKeepsBooks(s, id, s.jobs[id].(approval := Some(approval), status := Ready, updatedAt := now),
                       {AwaitingApproval}, Event(id, ApprovalBound, Some(AwaitingApproval), Some(Ready)));
      }
    case Move(_, simple, now) =>
      if SimplyMoved(s, id, simple, now).Some? {
        MoveKeepsBooks(s, id, s.jobs[id].(status := Target(simple), updatedAt := now), Allowed(simple),
                       Event(id, SimpleKind(simple), Some(s.jobs[id].status), Some(Target(simple))));
      }
    case RecoverInterrupted(_, now) =>
      if Recovered(s, id, now).Some? {
        EndKeepsBooks(s, id, s.jobs[id].(status := Ready, updatedAt := now),
                      Event(id, JobResumed, Some(Running), Some(Ready)), ByInterruption);
      }
  }

  lemma {:induction false} CallKeepsBooks(s: State, call: Call)
    requires BooksBalance(s) && Fresh(call)
    ensures BooksBalance(Apply(s, call))
  {
    match call
    case CreateJob(id, job) => CreateKeepsBooks(s, id, job);
    case Serve(id, worker, now, execution) => ServeKeepsBooks(s, id, worker, now, execution);
    case _ => ServiceKeepsBooks(s, call);
  }

  lemma {:induction false} ReachableBooks(calls: seq<Call>)
    requires AllFresh(calls)
    ensures BooksBalance(Run(EMPTY, calls))
  {
    if calls == [] {
      forall id ensures Good(ViewOf(EMPTY, id)) { assert ViewOf(EMPTY, id) == NOTHING; }
    } else {
      ReachableBooks(calls[..|calls| - 1]);
      CallKeepsBooks(Run(EMPTY, calls[..|calls| - 1]), calls[|calls| - 1]);
    }
  }

  // ----- What balanced books say -----

  /** After any serial run the log replays, unbroken, to the stored status, and the attempt rows are exact. */
  lemma {:induction false} AuditReplaysToStatus(calls: seq<Call>, id: Id)
    requires AllFresh(calls) && id in Run(EMPTY, calls).jobs
    ensures var s := Run(EMPTY, calls); var job, rows := s.jobs[id], RowsOf(s, id);
      && Replay(s.audit, id).trail == At(Some(job.status))
      && Replay(s.audit, id).claims == job.attempts
      && (forall n :: n in rows <==> 1 <= n <= job.attempts)
      && (forall n :: n in rows ==> (rows[n].None? <==> n == job.attempts && job.status == Running))
  {
    ReachableBooks(calls);
    assert Good(ViewOf(Run(EMPTY, calls), id));
  }

  function Total(delays: seq<int>): int {
    if delays == [] then 0 else Total(delays[..|delays| - 1]) + delays[|delays| - 1]
  }

  /** The delays scheduled after the given attempts. */
  function Backoffs(policy: RetryPolicy, numbers: seq<int>): seq<int>
    requires forall k :: 0 <= k < |numbers| ==> 1 <= numbers[k]
  {
    seq(|numbers|, k requires 0 <= k < |numbers| => policy.Delay(numbers[k]))
  }

  ghost predicate Ascending(numbers: seq<int>, low: int, high: int) {
    && (forall i :: 0 <= i < |numbers| ==> low <= numbers[i] <= high)
    && (forall i, j :: 0 <= i < j < |numbers| ==> numbers[i] < numbers[j])
  }

  ghost predicate WithinRetryBudget(policy: RetryPolicy, retried: seq<int>) {
    && policy.Valid()
    && Ascending(retried, 1, policy.maxAttempts - 1)
    && |retried| <= policy.maxAttempts - 1
    && Total(Backoffs(policy, retried)) <= policy.baseDelay * (Pow2(policy.maxAttempts - 1) - 1)
  }

  lemma {:induction false} RetriedRowsAscend(rows: Attempts, n: int)
    requires 0 <= n
    ensures Ascending(RetriedRows(rows, n), 1, n)
    ensures forall k :: k in RetriedRows(rows, n) ==> k in rows && rows[k] == Some(ByRetry)
    decreases n
  {
    if n >= 1 { RetriedRowsAscend(rows, n - 1); }
  }

  lemma {:induction false} AscendingIsShort(numbers: seq<int>, high: int)
    requires 0 <= high && Ascending(numbers, 1, high)
    ensures |numbers| <= high
  {
    if numbers != [] {
      var last := numbers[|numbers| - 1];
      AscendingIsShort(numbers[..|numbers| - 1], last - 1);
    }
  }

  lemma {:induction false} Pow2Grows(m: nat, n: nat)
    requires m <= n
    ensures Pow2(m) <= Pow2(n)
  {
    if m < n { Pow2Grows(m, n - 1); }
  }

  /** Doubling delays at distinct attempts stay below the next power of two. */
  lemma {:induction false} BackoffIsBounded(policy: RetryPolicy, numbers: seq<int>, high: nat)
    requires policy.Valid() && Ascending(numbers, 1, high)
    ensures Total(Backoffs(policy, numbers)) <= policy.baseDelay * (Pow2(high) - 1)
  {
    var delays := Backoffs(policy, numbers);
    if numbers == [] {
      ScaleGrows(policy.baseDelay, 0, Pow2(high) - 1);
    } else {
      var rest, last := numbers[..|numbers| - 1], numbers[|numbers| - 1];
      assert Ascending(rest, 1, last - 1);
      BackoffIsBounded(policy, rest, last - 1);
      assert delays[..|delays| - 1] == Backoffs(policy, rest);
      Pow2Grows(last, high);
      ScaleGrows(policy.baseDelay, Pow2(last) - 1, Pow2(high) - 1);
      ScaleSplits(policy.baseDelay, Pow2(last - 1) - 1, Pow2(last - 1));
    }
  }

  lemma {:induction false} ScaleGrows(k: int, a: int, b: int)
    requires 0 <= k && a <= b
    ensures k * a <= k * b
  {
  }

  lemma {:induction false} ScaleSplits(k: int, a: int, b: int)
    ensures k * (a + b) == k * a + k * b
  {
  }

  /**
   * Whatever checkpoints, pauses, blocks and crashes intervene: the retries the log records happened at
   * strictly increasing attempt numbers below the limit, so there are fewer than max_attempts of them,
   * and their delays add up to at most base * (2^(max_attempts - 1) - 1).
   */
  lemma {:induction false} RetriesAreBounded(calls: seq<Call>, id: Id)
    requires AllFresh(calls) && id in Run(EMPTY, calls).jobs
    ensures WithinRetryBudget(Run(EMPTY, calls).jobs[id].spec.retry, Replay(Run(EMPTY, calls).audit, id).retried)
  {
    ReachableBooks(calls);
    var s := Run(EMPTY, calls);
    assert Good(ViewOf(s, id));
    BalancedRetries(s.jobs[id], RowsOf(s, id), Replay(s.audit, id));
  }

  lemma {:induction false} BalancedRetries(job: Job, rows: Attempts, tally: Tally)
    requires Balanced(job, rows, tally)
    ensures WithinRetryBudget(job.spec.retry, tally.retried)
  {
    var retried := tally.retried;
    RetriedRowsAscend(rows, job.attempts);
    forall i | 0 <= i < |retried| ensures retried[i] <= job.spec.retry.maxAttempts - 1 {
      assert retried[i] in retried;
    }
    AscendingIsShort(retried, job.spec.retry.maxAttempts - 1);
    BackoffIsBounded(job.spec.retry, retried, job.spec.retry.maxAttempts - 1);
  }

  /** While a job waits, its wake-up time is the moment of the failure plus that attempt's delay. */
  lemma {:induction false} WaitIsTheBackoff(calls: seq<Call>, id: Id)
    requires AllFresh(calls) && id in Run(EMPTY, calls).jobs && Run(EMPTY, calls).jobs[id].status == RetryWait
    ensures var s := Run(EMPTY, calls); var job, retried := s.jobs[id], Replay(s.audit, id).retried;
      && retried != [] && retried[|retried| - 1] == job.attempts >= 1
      && job.nextRetryAt == Some(job.updatedAt + job.spec.retry.Delay(job.attempts))
  {
    ReachableBooks(calls);
    assert Good(ViewOf(Run(EMPTY, calls), id));
  }

  /** With balanced books, recovery works on exactly the running jobs that have saved a checkpoint. */
  lemma {:induction false} RecoverableIff(calls: seq<Call>, id: Id, now: Instant)
    requires AllFresh(calls)
    ensures var s := Run(EMPTY, calls);
      Recovered(s, id, now).Some? <==> id in s.jobs && s.jobs[id].status == Running && id in s.checkpoints
  {
    ReachableBooks(calls);
    assert Good(ViewOf(Run(EMPTY, calls), id));
  }

  ghost predicate Stuck(s: State, id: Id) { id in s.jobs && s.jobs[id].status == Running && id !in s.checkpoints }

  lemma {:induction false} ExecutionElsewhere(s: State, id: Id, other: Id, job: Job, execution: Execution, now: Instant)
    requires Stuck(s, id) && other != id
    ensures var t := Executed(s, other, job, execution, now); Stuck(t, id) && t.jobs[id] == s.jobs[id]
  {
  }

  lemma {:induction false} StuckStep(s: State, call: Call, id: Id)
    requires Stuck(s, id)
    ensures Stuck(Apply(s, call), id) && Apply(s, call).jobs[id] == s.jobs[id]
  {
    if call.Serve? && call.id != id && call.id in s.jobs {
      var e := Event(call.id, JobClaimed, Some(s.jobs[call.id].status), Some(Running));
      var claimed := ClaimTx(s, call.id, call.now, e);
      if claimed.Some? {
        ExecutionElsewhere(claimed.value, id, call.id, claimed.value.jobs[call.id], call.execution, call.now);
      }
    }
  }

  /** A job whose worker crashed before any checkpoint was saved stays RUNNING under every further call. */
  lemma {:induction false} CrashBeforeCheckpointIsForever(s: State, calls: seq<Call>, id: Id)
    requires Stuck(s, id)
    ensures Stuck(Run(s, calls), id) && Run(s, calls).jobs[id] == s.jobs[id]
  {
    if calls != [] {
      CrashBeforeCheckpointIsForever(s, calls[..|calls| - 1], id);
      StuckStep(Run(s, calls[..|calls| - 1]), calls[|calls| - 1], id);
    }
  }

  lemma {:induction false} RunSnoc(s: State, calls: seq<Call>, call: Call)
    ensures Run(s, calls + [call]) == Apply(Run(s, calls), call)
  {
    assert (calls + [call])[..|calls + [call]| - 1] == calls;
  }

  /** A worker that dies in the first attempt of an entitled job leaves it stuck. */
  lemma {:induction false} CrashedServeIsStuck(s: State, id: Id, worker: Worker, now: Instant, stage: Stage)
    requires id in s.jobs && s.jobs[id].Claimable(now) && id !in s.checkpoints && s.jobs[id].attempts + 1 !in RowsOf(s, id)
    requires Check(id, s.jobs[id], None, worker, now).Cleared?
    ensures Stuck(Served(s, id, worker, now, Crashes(stage)), id)
  {
    assert CheckpointOf(s, id) == None;
  }

  /** A store that has seen nothing but the creation of one ready job without a plan. */
  lemma {:induction false} CreatedAlone(job: Job)
    requires job.status == Ready && job.spec.plan.None?
    ensures Run(EMPTY, [] + [CreateJob(0, job)]) == State(map[0 := job], map[], map[], [Event(0, JobCreated, None, Some(Ready))])
  {
    RunSnoc(EMPTY, [], CreateJob(0, job));
  }

  /** It happens: a job is created, claimed, and its worker crashes at any stage. */
  lemma {:induction false} CrashBeforeCheckpointHappens(now: Instant, stage: Stage) returns (calls: seq<Call>)
    ensures AllFresh(calls) && Stuck(Run(EMPTY, calls), 0)
  {
    var job, worker := PlainJob(Policy.SecurityDomain(0, None)), PlainWorker();
    var create, serve := CreateJob(0, job), Serve(0, worker, now, Crashes(stage));
    calls := [] + [create] + [serve];
    SomeJobIsEntitled(now);
    CreatedAlone(job);
    RunSnoc(EMPTY, [] + [create], serve);
    var s := Run(EMPTY, [] + [create]);
    CrashedServeIsStuck(s, 0, worker, now, stage);
  }

  /** A job the checks raise on is left where it is by every execution. */
  lemma {:induction false} RaisingJobStays(s: State, id: Id, worker: Worker, now: Instant, execution: Execution)
    requires id in s.jobs && Check(id, s.jobs[id], CheckpointOf(s, id), worker, now).Raises?
    ensures Served(s, id, worker, now, execution) == s
  {
  }

  /** It happens: one created job is claimable, the checks raise on it, and serving it changes nothing. */
  lemma {:induction false} RaisingJobHappens(now: Instant) returns (calls: seq<Call>)
    ensures AllFresh(calls) && var s := Run(EMPTY, calls);
      && 0 in s.jobs && s.jobs.Keys == {0} && s.jobs[0].Claimable(now)
      && Check(0, s.jobs[0], CheckpointOf(s, 0), PlainWorker(), now).Raises?
      && forall execution :: Served(s, 0, PlainWorker(), now, execution) == s
  {
    var job := PlainJob(Policy.SecurityDomain(0, Some(1)));
    calls := [] + [CreateJob(0, job)];
    SomeJobRaises(now);
    CreatedAlone(job);
    var s := Run(EMPTY, calls);
    forall execution { RaisingJobStays(s, 0, PlainWorker(), now, execution); }
  }

  // ----- What serving a job does, by its inputs -----

  predicate RetryDue(job: Job, number: int, execution: Execution) {
    && execution.Errors? && execution.transient && execution.code in job.spec.retry.retryableCodes
    && number < job.spec.retry.maxAttempts
  }

  /** The connector yielded a checkpoint whose identifier belongs to another job. */
  ghost predicate Unsaved(s: State, id: Id, execution: Execution) {
    && execution.Yields?
    && exists other :: other in s.checkpoints.Keys - {id} && s.checkpoints[other].checkpointId == execution.checkpoint.checkpointId
  }

  /** The status that the `number`-th attempt of a job leaves, exactly as its connector behaved. */
  ghost predicate StatusFollows(s: State, id: Id, job: Job, number: int, execution: Execution, status: Status) {
    && (status == Completed <==> execution == Finishes(Verified))
    && (status == CompletedWithWarnings <==> execution == Finishes(VerifiedWithWarnings))
    && (status == Indeterminate <==>
          execution == Unverifiable || execution == Finishes(VerificationFailed)
          || execution == Finishes(VerificationIndeterminate))
    && (status == RetryWait <==> RetryDue(job, number, execution))
    && (status == Failed <==> execution.Errors? && !RetryDue(job, number, execution))
    && (status == Ready <==> execution.Yields? && !Unsaved(s, id, execution))
    && (status == Running <==> execution.Crashes? || Unsaved(s, id, execution))
  }

  /** How the attempt row reads afterwards; a job left running has an open one. */
  function RowFor(status: Status): Option<AttemptOutcome> {
    match status
    case Completed => Some(ByCompletion) case CompletedWithWarnings => Some(ByCompletion)
    case Indeterminate => Some(ByIndeterminate) case RetryWait => Some(ByRetry)
    case Failed => Some(ByFailure) case Ready => Some(ByCheckpoint) case _ => None
  }

  function ClosingKind(status: Status): EventKind {
    match status
    case Completed => JobCompleted case CompletedWithWarnings => JobCompleted
    case RetryWait => RetryScheduled case Ready => CheckpointSaved case _ => JobFailed
  }

  /** Which verification events an execution logs. */
  function VerificationLog(id: Id, execution: Execution): seq<Event> {
    var started := Event(id, VerificationStarted, Some(Running), Some(Running));
    var completed := Event(id, VerificationCompleted, Some(Running), Some(Running));
    var stage := match execution
      case Finishes(_) => AfterVerification case Errors(stage, _, _) => stage case Crashes(stage) => stage
      case _ => BeforeVerification;
    match stage case BeforeVerification => [] case DuringVerification => [started] case AfterVerification => [started, completed]
  }

  /** The log of one attempt: the claim, the verification, and the end unless the job was left running. */
  function AttemptLog(id: Id, before: Status, execution: Execution, status: Status): seq<Event> {
    [Event(id, JobClaimed, Some(before), Some(Running))] + VerificationLog(id, execution)
    + if status == Running then [] else [Event(id, ClosingKind(status), Some(Running), Some(status))]
  }

  /** An attempt at a job: its row, its attempt, its checkpoint and its log, and nothing of any other job. */
  ghost predicate Attempted(s: State, t: State, id: Id, execution: Execution, now: Instant) {
    && id in s.jobs && id in t.jobs
    && var job, after, number := s.jobs[id], t.jobs[id], s.jobs[id].attempts + 1;
       && StatusFollows(s, id, job, number, execution, after.status)
       && 1 <= number
       && after == Job(
            job.spec, after.status, job.approval, number,
            if after.status == Ready then Some(execution.checkpoint.checkpointId) else job.checkpointId,
            now, if after.status == RetryWait then Some(now + job.spec.retry.baseDelay * Pow2(number - 1)) else None)
       && t == State(
            s.jobs[id := after], s.attempts[id := RowsOf(s, id)[number := RowFor(after.status)]],
            if after.status == Ready then s.checkpoints[id := execution.checkpoint] else s.checkpoints,
            s.audit + AttemptLog(id, job.status, execution, after.status))
  }

  /** A refused job is blocked; nothing is claimed and no attempt is made. */
  ghost predicate OnlyBlocked(s: State, t: State, id: Id, now: Instant) {
    && id in s.jobs
    && t == s.(jobs := s.jobs[id := s.jobs[id].(status := Blocked, updatedAt := now)],
               audit := s.audit + [Event(id, JobBlocked, Some(s.jobs[id].status), Some(Blocked))])
  }

  lemma {:induction false} EndedIs(s: State, id: Id, job: Job, kind: EventKind, outcome: AttemptOutcome)
    requires id in s.jobs && s.jobs[id].status == Running && job.attempts in RowsOf(s, id)
    ensures Ended(s, id, job, kind, outcome) == State(
      s.jobs[id := job], s.attempts[id := RowsOf(s, id)[job.attempts := Some(outcome)]], s.checkpoints,
      s.audit + [Event(id, kind, Some(Running), Some(job.status))])
  {
  }

  lemma {:induction false} VerifyingLogs(s: State, id: Id, execution: Execution, stage: Stage)
    requires execution == Crashes(stage) || (execution.Errors? && execution.stage == stage)
             || (execution.Finishes? && stage == AfterVerification)
    ensures Verifying(s, id, stage) == s.(audit := s.audit + VerificationLog(id, execution))
  {
    var started := Event(id, VerificationStarted, Some(Running), Some(Running));
    var completed := Event(id, VerificationCompleted, Some(Running), Some(Running));
    assert s.audit + [started] + [completed] == s.audit + [started, completed];
  }

  /** The state in which a claimed job is executed. */
  ghost predicate ClaimedFrom(s: State, c: State, id: Id, now: Instant) {
    && id in s.jobs && s.jobs[id].attempts >= 0
    && var number := s.jobs[id].attempts + 1;
       c == State(
         s.jobs[id := s.jobs[id].(status := Running, attempts := number, updatedAt := now, nextRetryAt := None)],
         s.attempts[id := RowsOf(s, id)[number := None]], s.checkpoints,
         s.audit + [Event(id, JobClaimed, Some(s.jobs[id].status), Some(Running))])
  }

  lemma {:induction false} EndAttempts(
    s: State, c: State, id: Id, execution: Execution, now: Instant, ended: Job, kind: EventKind, outcome: AttemptOutcome)
    requires ClaimedFrom(s, c, id, now) && !execution.Yields?
    requires StatusFollows(s, id, s.jobs[id], s.jobs[id].attempts + 1, execution, ended.status)
    requires ended.status !in {Running, Ready} && kind == ClosingKind(ended.status) && Some(outcome) == RowFor(ended.status)
    requires ended == c.jobs[id].(status := ended.status, updatedAt := now, nextRetryAt := ended.nextRetryAt)
    requires ended.nextRetryAt ==
      if ended.status == RetryWait then Some(now + ended.spec.retry.baseDelay * Pow2(ended.attempts - 1)) else None
    ensures var checked := c.(audit := c.audit + VerificationLog(id, execution));
      Attempted(s, Ended(checked, id, ended, kind, outcome), id, execution, now)
  {
    var checked := c.(audit := c.audit + VerificationLog(id, execution));
    EndedIs(checked, id, ended, kind, outcome);
    RowReplaced(s.attempts, id, RowsOf(s, id), ended.attempts, None, Some(outcome));
    LogJoined(s.audit, Event(id, JobClaimed, Some(s.jobs[id].status), Some(Running)), VerificationLog(id, execution),
              Event(id, kind, Some(Running), Some(ended.status)));
    assert s.jobs[id := c.jobs[id]][id := ended] == s.jobs[id := ended];
  }

  lemma {:induction false} RowReplaced(
    all: map<Id, Attempts>, id: Id, rows: Attempts, number: int, first: Option<AttemptOutcome>, last: Option<AttemptOutcome>)
    ensures all[id := rows[number := first]][id := rows[number := first][number := last]] == all[id := rows[number := last]]
  {
    assert rows[number := first][number := last] == rows[number := last];
  }

  lemma {:induction false} LogJoined(audit: seq<Event>, first: Event, middle: seq<Event>, last: Event)
    ensures audit + [first] + middle + [last] == audit + ([first] + middle + [last])
  {
  }

  lemma {:induction false} FinishAttempts(s: State, c: State, id: Id, verification: Verification, now: Instant)
    requires ClaimedFrom(s, c, id, now)
    ensures Attempted(s, Executed(c, id, c.jobs[id], Finishes(verification), now), id, Finishes(verification), now)
  {
    var execution, job := Finishes(verification), c.jobs[id];
    VerifyingLogs(c, id, execution, AfterVerification);
    match verification
    case Verified => EndAttempts(s, c, id, execution, now, job.(status := Completed, updatedAt := now), JobCompleted, ByCompletion);
    case VerifiedWithWarnings =>
      EndAttempts(s, c, id, execution, now, job.(status := CompletedWithWarnings, updatedAt := now), JobCompleted, ByCompletion);
    case _ =>
      EndAttempts(s, c, id, execution, now, job.(status := Indeterminate, updatedAt := now), JobFailed, ByIndeterminate);
  }

  lemma {:induction false} ErrorFollows(s: State, id: Id, job: Job, number: int, execution: Execution)
    requires execution.Errors?
    ensures StatusFollows(s, id, job, number, execution, if RetryDue(job, number, execution) then RetryWait else Failed)
  {
  }

  /** An error is handled on the log that already tells how far verification got. */
  lemma {:induction false} ErrorIsHandled(c: State, id: Id, job: Job, execution: Execution, now: Instant)
    requires execution.Errors? && 1 <= job.attempts
    ensures var checked := c.(audit := c.audit + VerificationLog(id, execution));
      Executed(c, id, job, execution, now) ==
        if RetryDue(job, job.attempts, execution) then Ended(checked, id, Waiting(job, now), RetryScheduled, ByRetry)
        else Ended(checked, id, job.(status := Failed, updatedAt := now), JobFailed, ByFailure)
  {
    VerifyingLogs(c, id, execution, execution.stage);
  }

  function Waiting(job: Job, now: Instant): Job
    requires 1 <= job.attempts
  {
    job.(status := RetryWait, nextRetryAt := Some(now + job.spec.retry.Delay(job.attempts)), updatedAt := now)
  }

  lemma {:induction false} RetryAttempts(s: State, c: State, id: Id, execution: Execution, now: Instant)
    requires ClaimedFrom(s, c, id, now) && execution.Errors? && RetryDue(s.jobs[id], s.jobs[id].attempts + 1, execution)
    ensures Attempted(s, Executed(c, id, c.jobs[id], execution, now), id, execution, now)
  {
    ErrorFollows(s, id, s.jobs[id], s.jobs[id].attempts + 1, execution);
    ErrorIsHandled(c, id, c.jobs[id], execution, now);
    EndAttempts(s, c, id, execution, now, Waiting(c.jobs[id], now), RetryScheduled, ByRetry);
  }

  lemma {:induction false} FailureAttempts(s: State, c: State, id: Id, execution: Execution, now: Instant)
    requires ClaimedFrom(s, c, id, now) && execution.Errors? && !RetryDue(s.jobs[id], s.jobs[id].attempts + 1, execution)
    ensures Attempted(s, Executed(c, id, c.jobs[id], execution, now), id, execution, now)
  {
    ErrorFollows(s, id, s.jobs[id], s.jobs[id].attempts + 1, execution);
    ErrorIsHandled(c, id, c.jobs[id], execution, now);
    EndAttempts(s, c, id, execution, now, c.jobs[id].(status := Failed, updatedAt := now), JobFailed, ByFailure);
  }

  lemma {:induction false} YieldAttempts(s: State, c: State, id: Id, checkpoint: Checkpoint, now: Instant)
    requires ClaimedFrom(s, c, id, now)
    ensures Attempted(s, Executed(c, id, c.jobs[id], Yields(checkpoint), now), id, Yields(checkpoint), now)
  {
    var number := s.jobs[id].attempts + 1;
    var claim := Event(id, JobClaimed, Some(s.jobs[id].status), Some(Running));
    LogJoined(s.audit, claim, [], Event(id, CheckpointSaved, Some(Running), Some(Ready)));
    assert [claim] + [] + [] == [claim] && s.audit + [claim] + [] == s.audit + [claim];
    RowReplaced(s.attempts, id, RowsOf(s, id), number, None, Some(ByCheckpoint));
  }

  lemma {:induction false} ExecutionAttempts(s: State, c: State, id: Id, execution: Execution, now: Instant)
    requires ClaimedFrom(s, c, id, now)
    ensures Attempted(s, Executed(c, id, c.jobs[id], execution, now), id, execution, now)
  {
    match execution
    case Yields(checkpoint) => YieldAttempts(s, c, id, checkpoint, now);
    case Unverifiable =>
      assert c.audit + VerificationLog(id, execution) == c.audit;
      EndAttempts(s, c, id, execution, now, c.jobs[id].(status := Indeterminate, updatedAt := now), JobFailed, ByIndeterminate);
    case Finishes(verification) => FinishAttempts(s, c, id, verification, now);
    case Errors(_, _, _) =>
      if RetryDue(s.jobs[id], s.jobs[id].attempts + 1, execution) {
        RetryAttempts(s, c, id, execution, now);
      } else {
        FailureAttempts(s, c, id, execution, now);
      }
    case Crashes(stage) =>
      VerifyingLogs(c, id, execution, stage);
      var claim := Event(id, JobClaimed, Some(s.jobs[id].status), Some(Running));
      assert s.audit + [claim] + VerificationLog(id, execution)
          == s.audit + AttemptLog(id, s.jobs[id].status, execution, Running);
  }

  /**
   * Serving a claimable job, by its inputs: an entitled job is attempted and its connector's behaviour decides
   * everything that is stored; on a foreign domain the call raises and stores nothing; any other job is blocked.
   */
  lemma {:induction false} ServingDecides(s: State, id: Id, worker: Worker, now: Instant, execution: Execution)
    requires BooksBalance(s) && id in s.jobs && s.jobs[id].Claimable(now)
    ensures var t := Served(s, id, worker, now, execution);
      if Entitled(id, s.jobs[id], CheckpointOf(s, id), worker, now) then Attempted(s, t, id, execution, now)
      else if OnForeignDomain(s.jobs[id], worker, now) then t == s
      else OnlyBlocked(s, t, id, now)
  {
    var job := s.jobs[id];
    ClearedIffEntitled(id, job, CheckpointOf(s, id), worker, now);
    RaisesIffForeignDomain(id, job, CheckpointOf(s, id), worker, now);
    if Check(id, job, CheckpointOf(s, id), worker, now).Cleared? { ClearedIsAttempted(s, id, now, execution); }
  }

  lemma {:induction false} ClearedIsAttempted(s: State, id: Id, now: Instant, execution: Execution)
    requires BooksBalance(s) && id in s.jobs && s.jobs[id].Claimable(now)
    ensures var claimed := ClaimTx(s, id, now, Event(id, JobClaimed, Some(s.jobs[id].status), Some(Running)));
      && claimed.Some? && id in claimed.value.jobs
      && Attempted(s, Executed(claimed.value, id, claimed.value.jobs[id], execution, now), id, execution, now)
  {
    var e := Event(id, JobClaimed, Some(s.jobs[id].status), Some(Running));
    assert Good(ViewOf(s, id));
    ClaimKeepsBooks(s, id, now, e);
    ExecutionAttempts(s, ClaimTx(s, id, now, e).value, id, execution, now);
  }

  /** An otherwise acceptable job in another tenant's domain. */
  predicate OnForeignDomain(job: Job, worker: Worker, now: Instant) {
    SameConnector(job, worker) && PlanApproved(job, now) && job.spec.domain.tenant !in {None, Some(job.spec.principal.tenant)}
  }

  /** A call that could have given the job the status it has; a connector is only ever called for an entitled job. */
  ghost predicate Explains(s: State, call: Call, id: Id, status: Status) {
    call.id == id &&
    match call
    case CreateJob(_, job) => id !in s.jobs && status == job.status && status in {Planned, AwaitingApproval, Ready}
    case BindApproval(_, _, _) => id in s.jobs && s.jobs[id].status == AwaitingApproval && status == Ready
    case Move(_, simple, _) => (match simple case Pause => status == Paused case Cancel => status == Cancelled case Resume => status == Ready)
    case RecoverInterrupted(_, _) => id in s.jobs && s.jobs[id].status == Running && status == Ready
    case Serve(_, worker, now, execution) =>
      && id in s.jobs && s.jobs[id].Claimable(now)
      && if Entitled(id, s.jobs[id], CheckpointOf(s, id), worker, now)
         then StatusFollows(s, id, s.jobs[id], s.jobs[id].attempts + 1, execution, status)
         else status == Blocked
  }

  lemma {:induction false} ServeElsewhere(s: State, id: Id, other: Id, worker: Worker, now: Instant, execution: Execution)
    requires BooksBalance(s) && id != other
    ensures var t := Served(s, other, worker, now, execution);
      (id in t.jobs <==> id in s.jobs) && (id in s.jobs ==> t.jobs[id] == s.jobs[id])
  {
    if other in s.jobs && s.jobs[other].Claimable(now) { ServingDecides(s, other, worker, now, execution); }
  }

  lemma {:induction false} ApplyExplains(s: State, call: Call, id: Id)
    requires BooksBalance(s) && id in Apply(s, call).jobs
    ensures var status := Apply(s, call).jobs[id].status;
      (id in s.jobs && s.jobs[id].status == status) || Explains(s, call, id, status)
  {
    match call
    case Serve(other, worker, now, execution) =>
      if other != id {
        ServeElsewhere(s, id, other, worker, now, execution);
      } else if id in s.jobs && s.jobs[id].Claimable(now) {
        ServingDecides(s, id, worker, now, execution);
      }
    case Move(_, simple, _) =>
    case CreateJob(_, _) =>
    case BindApproval(_, _, _) =>
    case RecoverInterrupted(_, _) =>
  }

  /**
   * Over any serial run, every job got its status from some call made while the store stood as it then did.
   * A job is completed only if it was served, entitled, and its connector finished verified; failed or
   * waiting only if its connector reported an error; cancelled only if its owner cancelled it.
   */
  lemma {:induction false} EveryStatusIsExplained(calls: seq<Call>, id: Id)
    requires AllFresh(calls) && id in Run(EMPTY, calls).jobs
    ensures var status := Run(EMPTY, calls).jobs[id].status;
      exists i :: 0 <= i < |calls| && Explains(Run(EMPTY, calls[..i]), calls[i], id, status)
  {
    var n := |calls| - 1;
    var prior, status := Run(EMPTY, calls[..n]), Run(EMPTY, calls).jobs[id].status;
    ReachableBooks(calls[..n]);
    ApplyExplains(prior, calls[n], id);
    if !Explains(prior, calls[n], id, status) {
      EveryStatusIsExplained(calls[..n], id);
      var i :| 0 <= i < n && Explains(Run(EMPTY, calls[..n][..i]), calls[..n][i], id, status);
      assert calls[..n][..i] == calls[..i];
    }
  }

  // ----- The lifecycle -----

  /** The statuses that may follow a status; a terminal one has none. */
  function Successors(s: Status): set<Status> {
    match s
    case Planned => {Cancelled}
    case AwaitingApproval => {Ready, Cancelled}
    case Ready => {Running, Paused, Blocked, Cancelled}
    case RetryWait => {Running, Paused, Blocked, Cancelled}
    case Paused => {Ready, Cancelled}
    case Blocked => {Ready, Cancelled}
    case Running => {Running, Ready, RetryWait, Completed, CompletedWithWarnings, Failed, Indeterminate}
    case _ => {}
  }

  /** Events without a status only bind plans; the first event creates; every other one follows an edge. */
  predicate Legal(e: Event) {
    match (e.previous, e.next)
    case (_, None) => e.kind == PlanBound
    case (None, Some(next)) => e.kind == JobCreated && next in {Planned, AwaitingApproval, Ready}
    case (Some(previous), Some(next)) =>
      && next in Successors(previous)
      && (e.kind == JobClaimed <==> next == Running && previous != Running)
      && (e.kind == RetryScheduled <==> next == RetryWait)
      && (e.kind == JobCompleted <==> next in {Completed, CompletedWithWarnings})
      && (e.kind == JobFailed <==> next in {Failed, Indeterminate})
      && (e.kind == ApprovalBound <==> previous == AwaitingApproval && next == Ready)
  }

  ghost predicate AllLegal(audit: seq<Event>) { forall i :: 0 <= i < |audit| ==> Legal(audit[i]) }

  /** A state whose audit log only grew by legal events. */
  ghost predicate GrewLegally(s: State, t: State) { AllLegal(s.audit) ==> AllLegal(t.audit) }

  lemma {:induction false} ServiceIsLegal(s: State, call: Call)
    requires !call.Serve?
    ensures GrewLegally(s, Apply(s, call))
  {
  }

  lemma {:induction false} EndedIsLegal(s: State, id: Id, job: Job, kind: EventKind, outcome: AttemptOutcome)
    requires Legal(Event(id, kind, Some(Running), Some(job.status)))
    ensures GrewLegally(s, Ended(s, id, job, kind, outcome))
  {
  }

  lemma {:induction false} VerifyingIsLegal(s: State, id: Id, stage: Stage)
    ensures GrewLegally(s, Verifying(s, id, stage))
  {
    var started := Event(id, VerificationStarted, Some(Running), Some(Running));
    var completed := Event(id, VerificationCompleted, Some(Running), Some(Running));
    assert Legal(started) && Legal(completed);
  }

  lemma {:induction false} YieldIsLegal(s: State, id: Id, job: Job, checkpoint: Checkpoint, now: Instant)
    ensures GrewLegally(s, Executed(s, id, job, Yields(checkpoint), now))
  {
    assert Legal(Event(id, CheckpointSaved, Some(Running), Some(Ready)));
  }

  lemma {:induction false} FinishIsLegal(s: State, id: Id, job: Job, verification: Verification, now: Instant)
    ensures GrewLegally(s, Executed(s, id, job, Finishes(verification), now))
  {
    VerifyingIsLegal(s, id, AfterVerification);
    var checked := Verifying(s, id, AfterVerification);
    EndedIsLegal(checked, id, job.(status := Completed, updatedAt := now), JobCompleted, ByCompletion);
    EndedIsLegal(checked, id, job.(status := CompletedWithWarnings, updatedAt := now), JobCompleted, ByCompletion);
    EndedIsLegal(checked, id, job.(status := Indeterminate, updatedAt := now), JobFailed, ByIndeterminate);
  }

  lemma {:induction false} ExecutionIsLegal(s: State, id: Id, job: Job, execution: Execution, now: Instant)
    ensures GrewLegally(s, Executed(s, id, job, execution, now))
  {
    match execution
    case Yields(checkpoint) => YieldIsLegal(s, id, job, checkpoint, now);
    case Unverifiable => EndedIsLegal(s, id, job.(status := Indeterminate, updatedAt := now), JobFailed, ByIndeterminate);
    case Finishes(verification) => FinishIsLegal(s, id, job, verification, now);
    case Errors(stage, code, transient) =>
      VerifyingIsLegal(s, id, stage);
      ErrorIsLegal(Verifying(s, id, stage), id, job, code, transient, now);
    case Crashes(stage) => VerifyingIsLegal(s, id, stage);
  }

  lemma {:induction false} ErrorIsLegal(s: State, id: Id, job: Job, code: Id, transient: bool, now: Instant)
    ensures GrewLegally(s, HandleError(s, id, job, code, transient, now))
  {
    if Retryable(job, code, transient) && 1 <= job.attempts {
      EndedIsLegal(
        s, id, job.(status := RetryWait, nextRetryAt := Some(now + job.spec.retry.Delay(job.attempts)), updatedAt := now),
        RetryScheduled, ByRetry);
    } else {
      EndedIsLegal(s, id, job.(status := Failed, updatedAt := now), JobFailed, ByFailure);
    }
  }

  lemma {:induction false} ServeIsLegal(s: State, id: Id, worker: Worker, now: Instant, execution: Execution)
    ensures GrewLegally(s, Served(s, id, worker, now, execution))
  {
    if id in s.jobs && s.jobs[id].Claimable(now) {
      var claimed := ClaimTx(s, id, now, Event(id, JobClaimed, Some(s.jobs[id].status), Some(Running)));
      BlockIsLegal(s, id, now);
      ClaimIsLegal(s, id, now);
      if claimed.Some? { ExecutionIsLegal(claimed.value, id, claimed.value.jobs[id], execution, now); }
    }
  }

  lemma {:induction false} BlockIsLegal(s: State, id: Id, now: Instant)
    requires id in s.jobs
    ensures GrewLegally(s, BlockedJob(s, id, now))
  {
  }

  lemma {:induction false} ClaimIsLegal(s: State, id: Id, now: Instant)
    requires id in s.jobs && s.jobs[id].Claimable(now)
    ensures GrewLegally(s, OrElse(ClaimTx(s, id, now, Event(id, JobClaimed, Some(s.jobs[id].status), Some(Running))), s))
  {
  }

  /** Every status change that any run records follows an edge of the lifecycle, under the right kind of event. */
  lemma {:induction false} LifecycleIsLegal(calls: seq<Call>)
    ensures AllLegal(Run(EMPTY, calls).audit)
  {
    if calls != [] {
      var s, call := Run(EMPTY, calls[..|calls| - 1]), calls[|calls| - 1];
      LifecycleIsLegal(calls[..|calls| - 1]);
      if call.Serve? { ServeIsLegal(s, call.id, call.worker, call.now, call.execution); } else { ServiceIsLegal(s, call); }
    }
  }

  // ----- The store, the service and the worker -----

  /** A row of the candidate query, ordered by creation time and then identifier. */
  datatype Candidate = Candidate(createdAt: Instant, id: Id)

  predicate ByCreation(a: Candidate, b: Candidate) {
    a.createdAt < b.createdAt || (a.createdAt == b.createdAt && a.id <= b.id)
  }

  /** The claimable job that the worker looks at first. */
  ghost predicate FirstClaimable(jobs: map<Id, Job>, id: Id, now: Instant) {
    && id in jobs && jobs[id].Claimable(now)
    && forall other :: other in jobs && jobs[other].Claimable(now) ==>
         ByCreation(Candidate(jobs[id].spec.createdAt, id), Candidate(jobs[other].spec.createdAt, other))
  }

  const CLAIM_LIMIT: nat := 100

  class JobStore {
    var jobs: map<Id, Job>
    var attempts: map<Id, Attempts>
    var checkpoints: map<Id, Checkpoint>
    var audit: seq<Event>

    function Snapshot(): State
      reads this
    {
      State(jobs, attempts, checkpoints, audit)
    }

    ghost predicate Valid()
      reads this
    {
      BooksBalance(Snapshot())
    }

    constructor ()
      ensures Valid() && Snapshot() == EMPTY
    {
      jobs, attempts, checkpoints, audit := map[], map[], map[], [];
      new;
      assert AllFresh([]);
      ReachableBooks([]);
    }

    // Transactions.

    method Insert(id: Id, job: Job, event: Event) returns (ok: bool)
      modifies this
      ensures ok <==> old(id !in jobs)
      ensures Snapshot() == OrElse(InsertTx(old(Snapshot()), id, job, event), old(Snapshot()))
    {
      if id in jobs { return false; }
      jobs := jobs[id := job];
      audit := audit + [event];
      return true;
    }

    method Append(event: Event)
      modifies this`audit
      ensures Snapshot() == AppendTx(old(Snapshot()), event)
    {
      audit := audit + [event];
    }

    method Transition(id: Id, job: Job, expected: set<Status>, event: Event, outcome: Option<AttemptOutcome>)
      returns (ok: bool)
      modifies this
      ensures ok <==> old(id in jobs && jobs[id].status in expected)
      ensures ok ==> jobs == old(jobs)[id := job] && audit == old(audit) + [event] && checkpoints == old(checkpoints)
      ensures ok && outcome.None? ==> attempts == old(attempts)
      ensures ok && outcome.Some? && id in old(attempts) && job.attempts in old(attempts)[id] ==>
        attempts == old(attempts)[id := old(attempts)[id][job.attempts := outcome]]
      ensures Snapshot() == OrElse(TransitionTx(old(Snapshot()), id, job, expected, event, outcome), old(Snapshot()))
    {
      if id !in jobs || jobs[id].status !in expected { return false; }
      jobs := jobs[id := job];
      if outcome.Some? {
        attempts := attempts[id := Close(RowsOf(Snapshot(), id), job.attempts, outcome.value)];
      }
      audit := audit + [event];
      return true;
    }

    method Claim(id: Id, now: Instant, event: Event) returns (claimed: Option<Job>)
      modifies this
      ensures claimed.Some? <==> ClaimTx(old(Snapshot()), id, now, event).Some?
      ensures claimed.Some? <==>
        && old(id in jobs) && old(jobs)[id].attempts + 1 !in RowsOf(old(Snapshot()), id)
        && (old(jobs)[id].status == Ready ||
              (old(jobs)[id].status == RetryWait && old(jobs)[id].nextRetryAt.Some? && old(jobs)[id].nextRetryAt.value <= now))
      ensures claimed.Some? ==>
        && id in jobs && claimed.value == jobs[id]
        && jobs == old(jobs)[id := old(jobs)[id].(
             status := Running, attempts := old(jobs)[id].attempts + 1, updatedAt := now, nextRetryAt := None)]
        && attempts == old(attempts)[id := RowsOf(old(Snapshot()), id)[claimed.value.attempts := None]]
        && checkpoints == old(checkpoints) && audit == old(audit) + [event]
      ensures Snapshot() == OrElse(ClaimTx(old(Snapshot()), id, now, event), old(Snapshot()))
    {
      if id !in jobs || !jobs[id].Claimable(now) { return None; }
      var job := Claimed(jobs[id], now);
      var rows := RowsOf(Snapshot(), id);
      if job.attempts in rows { return None; }
      jobs := jobs[id := job];
      attempts := attempts[id := rows[job.attempts := None]];
      audit := audit + [event];
      return Some(job);
    }

    method Save(id: Id, job: Job, checkpoint: Checkpoint, event: Event) returns (ok: bool)
      modifies this
      ensures ok <==>
        && old(id in jobs && jobs[id].status == Running) && job.checkpointId == Some(checkpoint.checkpointId)
        && forall other :: other in old(checkpoints) && other != id ==>
             old(checkpoints)[other].checkpointId != checkpoint.checkpointId
      ensures ok ==>
        && jobs == old(jobs)[id := job] && checkpoints == old(checkpoints)[id := checkpoint] && audit == old(audit) + [event]
        && (id in old(attempts) && job.attempts in old(attempts)[id] ==>
              attempts == old(attempts)[id := old(attempts)[id][job.attempts := Some(ByCheckpoint)]])
      ensures Snapshot() == OrElse(SaveTx(old(Snapshot()), id, job, checkpoint, event), old(Snapshot()))
    {
      if id !in jobs || jobs[id].status != Running || job.checkpointId != Some(checkpoint.checkpointId)
         || TakenElsewhere(Snapshot(), id, checkpoint)
      {
        return false;
      }
      checkpoints := checkpoints[id := checkpoint];
      jobs := jobs[id := job];
      attempts := attempts[id := Close(RowsOf(Snapshot(), id), job.attempts, ByCheckpoint)];
      audit := audit + [event];
      return true;
    }

    /** Ready jobs and due retries, oldest first, at most CLAIM_LIMIT of them. */
    method Claimable(now: Instant) returns (candidates: seq<Candidate>)
      ensures forall c :: c in candidates ==> c.id in jobs && jobs[c.id].Claimable(now)
      ensures candidates == [] ==> forall id :: id in jobs ==> !jobs[id].Claimable(now)
      ensures candidates != [] ==> FirstClaimable(jobs, candidates[0].id, now)
      ensures |candidates| <= CLAIM_LIMIT && Sorted(ByCreation, candidates)
    {
      var table := jobs;
      var rows := set id | id in table && table[id].Claimable(now) :: Candidate(table[id].spec.createdAt, id);
      candidates := SortKeys(ByCreation, rows);
      forall c | c in candidates ensures c.id in table && table[c.id].Claimable(now) { assert c in rows; }
      forall id | id in table && table[id].Claimable(now)
        ensures candidates != [] && ByCreation(candidates[0], Candidate(table[id].spec.createdAt, id))
      {
        assert Candidate(table[id].spec.createdAt, id) in rows;
      }
      assert candidates != [] ==> candidates[0] in rows;
      if |candidates| > CLAIM_LIMIT { candidates := candidates[..CLAIM_LIMIT]; }
    }

    // The service.

    /** Any valid job may be created; the books are kept when it comes with no attempts and no checkpoint. */
    method CreateJob(id: Id, job: Job) returns (ok: bool)
      requires Valid() && job.Valid()
      modifies this
      ensures Snapshot() == Apply(old(Snapshot()), Call.CreateJob(id, job))
      ensures !ok || Fresh(Call.CreateJob(id, job)) ==> Valid()
      ensures ok <==> old(id !in jobs) && job.status in {Planned, AwaitingApproval, Ready}
      ensures ok ==> Snapshot() == old(Snapshot()).(
        jobs := old(jobs)[id := job],
        audit := old(audit) + [Event(id, JobCreated, None, Some(job.status))]
                 + if job.spec.plan.Some? then [Event(id, PlanBound, None, None)] else [])
      ensures !ok ==> Snapshot() == old(Snapshot())
    {
      if Fresh(Call.CreateJob(id, job)) { CreateKeepsBooks(Snapshot(), id, job); }
      if job.status !in {Planned, AwaitingApproval, Ready} { return false; }
      ok := Insert(id, job, Event(id, JobCreated, None, Some(job.status)));
      if ok && job.spec.plan.Some? { Append(Event(id, PlanBound, None, None)); }
    }

    method BindApproval(id: Id, approval: Approval, now: Instant) returns (ok: bool)
      requires Valid()
      modifies this
      ensures Valid() && Snapshot() == Apply(old(Snapshot()), Call.BindApproval(id, approval, now))
      ensures ok <==> old(id in jobs && jobs[id].status == AwaitingApproval) && Approves(approval, old(jobs)[id].spec.plan, now)
      ensures ok ==> Snapshot() == old(Snapshot()).(
        jobs := old(jobs)[id := old(jobs)[id].(approval := Some(approval), status := Ready, updatedAt := now)],
        audit := old(audit) + [Event(id, ApprovalBound, Some(AwaitingApproval), Some(Ready))])
      ensures !ok ==> Snapshot() == old(Snapshot())
    {
      ServiceKeepsBooks(Snapshot(), Call.BindApproval(id, approval, now));
      if id !in jobs || jobs[id].status != AwaitingApproval || jobs[id].spec.plan.None?
         || !approval.Matches(jobs[id].spec.plan.value, now)
      {
        return false;
      }
      ok := Transition(id, jobs[id].(approval := Some(approval), status := Ready, updatedAt := now), {AwaitingApproval},
                       Event(id, ApprovalBound, Some(AwaitingApproval), Some(Ready)), None);
    }

    method SimpleTransition(id: Id, simple: Simple, now: Instant) returns (ok: bool)
      requires Valid()
      modifies this
      ensures Valid() && Snapshot() == Apply(old(Snapshot()), Move(id, simple, now))
      ensures ok <==> old(id in jobs) && match simple
        case Pause => old(jobs)[id].status in {Ready, RetryWait}
        case Cancel => !Terminal(old(jobs)[id].status) && old(jobs)[id].status != Running
        case Resume => old(jobs)[id].status in {Paused, Blocked}
      ensures ok ==>
        var status := match simple case Pause => Paused case Cancel => Cancelled case Resume => Ready;
        var kind := match simple case Pause => JobPaused case Cancel => JobCancelled case Resume => JobResumed;
        Snapshot() == old(Snapshot()).(
          jobs := old(jobs)[id := old(jobs)[id].(status := status, updatedAt := now)],
          audit := old(audit) + [Event(id, kind, Some(old(jobs)[id].status), Some(status))])
      ensures !ok ==> Snapshot() == old(Snapshot())
    {
      ServiceKeepsBooks(Snapshot(), Move(id, simple, now));
      if id !in jobs || jobs[id].status !in Allowed(simple) { return false; }
      ok := Transition(id, jobs[id].(status := Target(simple), updatedAt := now), Allowed(simple),
                       Event(id, SimpleKind(simple), Some(jobs[id].status), Some(Target(simple))), None);
    }

    method RecoverInterrupted(id: Id, now: Instant) returns (ok: bool)
      requires Valid()
      modifies this
      ensures Valid() && Snapshot() == Apply(old(Snapshot()), Call.RecoverInterrupted(id, now))
      ensures ok <==> old(id in jobs && jobs[id].status == Running && id in checkpoints)
      ensures ok ==> id in old(attempts) && Snapshot() == State(
        old(jobs)[id := old(jobs)[id].(status := Ready, updatedAt := now)],
        old(attempts)[id := old(attempts)[id][old(jobs)[id].attempts := Some(ByInterruption)]],
        old(checkpoints), old(audit) + [Event(id, JobResumed, Some(Running), Some(Ready))])
      ensures !ok ==> Snapshot() == old(Snapshot())
    {
      ServiceKeepsBooks(Snapshot(), Call.RecoverInterrupted(id, now));
      assert Good(ViewOf(Snapshot(), id));
      if id !in jobs || jobs[id].status != Running { return false; }
      if id !in checkpoints || jobs[id].checkpointId != Some(checkpoints[id].checkpointId) { return false; }
      ok := Transition(id, jobs[id].(status := Ready, updatedAt := now), {Running},
                       Event(id, JobResumed, Some(Running), Some(Ready)), Some(ByInterruption));
    }
  }

  /** The approval is for exactly this plan and has not expired. */
  predicate Approves(approval: Approval, plan: Option<Plan>, now: Instant) {
    && plan.Some? && approval.planId == plan.value.planId && approval.planHash == plan.value.planHash
    && approval.scope == plan.value.scope && (approval.expiresAt.Some? ==> now < approval.expiresAt.value)
  }

  class LocalJobWorker {
    const store: JobStore
    const config: Worker

    constructor (store: JobStore, config: Worker)
      ensures this.store == store && this.config == config
    {
      this.store, this.config := store, config;
    }

    method End(id: Id, job: Job, kind: EventKind, outcome: AttemptOutcome)
      modifies store
      ensures store.Snapshot() == Ended(old(store.Snapshot()), id, job, kind, outcome)
    {
      var _ := store.Transition(id, job, {Running}, Event(id, kind, Some(Running), Some(job.status)), Some(outcome));
    }

    method Verify(id: Id, stage: Stage)
      modifies store
      ensures store.Snapshot() == Verifying(old(store.Snapshot()), id, stage)
    {
      if stage != BeforeVerification { store.Append(Event(id, VerificationStarted, Some(Running), Some(Running))); }
      if stage == AfterVerification { store.Append(Event(id, VerificationCompleted, Some(Running), Some(Running))); }
    }

    method HandleConnectorError(id: Id, job: Job, code: Id, transient: bool, now: Instant)
      modifies store
      ensures store.Snapshot() == HandleError(old(store.Snapshot()), id, job, code, transient, now)
      ensures old(id in store.jobs && store.jobs[id].status == Running) && 1 <= job.attempts ==>
        var retries := transient && code in job.spec.retry.retryableCodes && job.attempts < job.spec.retry.maxAttempts;
        id in store.jobs && store.jobs[id] == job.(
          status := if retries then RetryWait else Failed, updatedAt := now,
          nextRetryAt := if retries then Some(now + job.spec.retry.baseDelay * Pow2(job.attempts - 1)) else job.nextRetryAt)
    {
      if Retryable(job, code, transient) && 1 <= job.attempts {
        var wakeAt := now + job.spec.retry.Delay(job.attempts);
        End(id, job.(status := RetryWait, nextRetryAt := Some(wakeAt), updatedAt := now), RetryScheduled, ByRetry);
      } else {
        End(id, job.(status := Failed, updatedAt := now), JobFailed, ByFailure);
      }
    }

    /** Run the connector on the job just claimed in `before`. */
    method Execute(id: Id, job: Job, execution: Execution, now: Instant, ghost before: State)
      modifies store
      ensures store.Snapshot() == Executed(old(store.Snapshot()), id, job, execution, now)
      ensures ClaimedFrom(before, old(store.Snapshot()), id, now) && job == old(store.jobs)[id] ==>
        Attempted(before, store.Snapshot(), id, execution, now)
    {
      if ClaimedFrom(before, store.Snapshot(), id, now) && job == store.jobs[id] {
        ExecutionAttempts(before, store.Snapshot(), id, execution, now);
      }
      match execution
      case Yields(checkpoint) =>
        var yielded := job.(status := Ready, checkpointId := Some(checkpoint.checkpointId), updatedAt := now);
        var _ := store.Save(id, yielded, checkpoint, Event(id, CheckpointSaved, Some(Running), Some(Ready)));
      case Unverifiable => End(id, job.(status := Indeterminate, updatedAt := now), JobFailed, ByIndeterminate);
      case Finishes(verification) =>
        Verify(id, AfterVerification);
        match verification {
          case Verified => End(id, job.(status := Completed, updatedAt := now), JobCompleted, ByCompletion);
          case VerifiedWithWarnings =>
            End(id, job.(status := CompletedWithWarnings, updatedAt := now), JobCompleted, ByCompletion);
          case _ => End(id, job.(status := Indeterminate, updatedAt := now), JobFailed, ByIndeterminate);
        }
      case Errors(stage, code, transient) =>
        Verify(id, stage);
        HandleConnectorError(id, job, code, transient, now);
      case Crashes(stage) => Verify(id, stage);
    }

    /** Check a claimable job, then block it, or claim and execute it. */
    method ServeCandidate(id: Id, now: Instant, execution: Execution) returns (request: Option<ConnectorRequest>)
      requires store.Valid() && id in store.jobs && store.jobs[id].Claimable(now)
      modifies store
      ensures store.Snapshot() == Served(old(store.Snapshot()), id, config, now, execution)
      ensures var verdict := Check(id, old(store.jobs)[id], CheckpointOf(old(store.Snapshot()), id), config, now);
        request == if verdict.Cleared? then Some(ExecutionRequest(old(store.jobs)[id], verdict.authority)) else None
    {
      var candidate := store.jobs[id];
      match Check(id, candidate, CheckpointOf(store.Snapshot(), id), config, now)
      case Raises => return None;
      case Refused(_) =>
        var _ := store.Transition(id, candidate.(status := Blocked, updatedAt := now), {Ready, RetryWait},
                                  Event(id, JobBlocked, Some(candidate.status), Some(Blocked)), None);
        return None;
      case Cleared(authority) =>
        var event := Event(id, JobClaimed, Some(candidate.status), Some(Running));
        ClaimKeepsBooks(store.Snapshot(), id, now, event);
        ghost var before := store.Snapshot();
        var claimed := store.Claim(id, now, event);
        Execute(id, claimed.value, execution, now, before);
        return Some(ExecutionRequest(claimed.value, authority));
    }

    /**
     * Serve the first claimable job. A connector is called exactly when that job is entitled to run, on
     * the job's own authority, and the books still balance however the execution goes.
     */
    method RunNext(now: Instant, execution: Execution) returns (served: Option<Id>, request: Option<ConnectorRequest>)
      requires store.Valid()
      modifies store
      ensures store.Valid()
      ensures served.None? ==>
        store.Snapshot() == old(store.Snapshot()) && forall id :: id in store.jobs ==> !store.jobs[id].Claimable(now)
      ensures served.Some? ==> FirstClaimable(old(store.jobs), served.value, now)
      ensures served.Some? ==> store.Snapshot() == Served(old(store.Snapshot()), served.value, config, now, execution)
      ensures request.Some? <==> served.Some? && Entitled(
        served.value, old(store.jobs)[served.value], CheckpointOf(old(store.Snapshot()), served.value), config, now)
      ensures request.Some? ==> request.value.Accepted() && request.value.authority.evaluatedAt == now
      // what is stored follows from how the connector behaved
      ensures request.Some? ==> Attempted(old(store.Snapshot()), store.Snapshot(), served.value, execution, now)
      // without a call to a connector the job is blocked, or left as it is when the checks raise
      ensures served.Some? && request.None? ==>
        if OnForeignDomain(old(store.jobs)[served.value], config, now) then store.Snapshot() == old(store.Snapshot())
        else OnlyBlocked(old(store.Snapshot()), store.Snapshot(), served.value, now)
    {
      var candidates := store.Claimable(now);
      if candidates == [] { return None, None; }
      var id := candidates[0].id;
      AuthorityOfCandidate(id, store.jobs[id], CheckpointOf(store.Snapshot(), id), config, now);
      ServeKeepsBooks(store.Snapshot(), id, config, now, execution);
      ServingDecides(store.Snapshot(), id, config, now, execution);
      request := ServeCandidate(id, now, execution);
      served := Some(id);
    }
  }

  lemma {:induction false} AuthorityOfCandidate(
    id: Id, job: Job, checkpoint: Option<Checkpoint>, worker: Worker, now: Instant)
    ensures var verdict := Check(id, job, checkpoint, worker, now);
      && (verdict.Cleared? <==> Entitled(id, job, checkpoint, worker, now))
      && (verdict.Cleared? ==> verdict.authority.evaluatedAt == now && ExecutionRequest(job, verdict.authority).Accepted())
  {
    ClearedIffEntitled(id, job, checkpoint, worker, now);
    if Check(id, job, checkpoint, worker, now).Cleared? {
      BindingCannotFail(id, job, checkpoint, worker, now, job);
    }
  }
}
