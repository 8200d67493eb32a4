/**
 * Jobs and the authority a worker needs before it may call a connector: jobs/models.py,
 * reauthorize_job in jobs/service.py, the checks of LocalJobWorker.run_next, and the binding
 * check in the constructor of a connector request (connectors/models.py).
 */
module JobAuthority {
  import opened Sequences
  import Policy

  type Id = nat
  type Instant = int

  datatype Status =
    | Planned | AwaitingApproval | Ready | Running | Paused | RetryWait
    | Completed | CompletedWithWarnings | Failed | Cancelled | Blocked | Indeterminate

  predicate Terminal(s: Status) {
    s in {Completed, CompletedWithWarnings, Failed, Cancelled, Indeterminate}
  }

  /** Delays are counted in clock ticks. */
  datatype RetryPolicy = RetryPolicy(maxAttempts: int, baseDelay: int, retryableCodes: set<Id>)
  {
    predicate Valid() { 1 <= maxAttempts && 0 <= baseDelay }

    function Delay(attempt: int): int
      requires 1 <= attempt
    {
      baseDelay * Pow2(attempt - 1)
    }
  }

  function Pow2(n: nat): (r: nat)
    ensures r >= 1
  {
    if n == 0 then 1 else 2 * Pow2(n - 1)
  }

  datatype Plan = Plan(
    planId: Id, planHash: Id, scope: seq<Id>, approvalRequired: bool, configurationHash: Option<Id>)

  datatype Approval = Approval(
    approvalRef: Id, planId: Id, planHash: Id, scope: seq<Id>, expiresAt: Option<Instant>)
  {
    predicate Matches(plan: Plan, now: Instant) {
      planId == plan.planId && planHash == plan.planHash && scope == plan.scope
      && (expiresAt.None? || now < expiresAt.value)
    }
  }

  /** What a job is created with and no later operation rewrites. */
  datatype Spec = Spec(
    connectorId: Id, connectorVersion: Id, configurationHash: Id, capabilityId: Id, operation: Id,
    principal: Policy.Principal, purpose: Id, domain: Policy.SecurityDomain,
    classification: Policy.Classification, resourceScope: seq<Id>,
    plan: Option<Plan>, retry: RetryPolicy, createdAt: Instant)

  datatype Job = Job(
    spec: Spec, status: Status, approval: Option<Approval>, attempts: int, checkpointId: Option<Id>,
    updatedAt: Instant, nextRetryAt: Option<Instant>)
  {
    predicate Valid() {
      && spec.retry.Valid() && 0 <= attempts
      && (status == AwaitingApproval ==> spec.plan.Some?)
      && (status == RetryWait ==> nextRetryAt.Some?)
    }

    predicate Claimable(now: Instant) {
      status == Ready || (status == RetryWait && nextRetryAt.Some? && nextRetryAt.value <= now)
    }
  }

  /** The row a successful claim writes. */
  function Claimed(job: Job, now: Instant): Job {
    job.(status := Running, attempts := job.attempts + 1, updatedAt := now, nextRetryAt := None)
  }

  /** The owner's simple moves, from which statuses, and to which. */
  datatype Simple = Pause | Cancel | Resume

  function Allowed(call: Simple): set<Status> {
    match call
    case Pause => {Ready, RetryWait}
    case Cancel => {Planned, AwaitingApproval, Ready, Paused, RetryWait, Blocked}
    case Resume => {Paused, Blocked}
  }

  function Target(call: Simple): Status {
    match call case Pause => Paused case Cancel => Cancelled case Resume => Ready
  }

  datatype Checkpoint = Checkpoint(checkpointId: Id, connectorId: Id, connectorVersion: Id, configurationHash: Id)

  datatype Connector = Connector(connectorId: Id, version: Id)

  predicate Compatible(c: Checkpoint, connector: Connector, configurationHash: Id) {
    c.connectorId == connector.connectorId && c.connectorVersion == connector.version
    && c.configurationHash == configurationHash
  }

  /** The state a worker is constructed with. */
  datatype Worker = Worker(
    connectors: map<Id, Connector>, configurationHashes: map<Id, Id>,
    registry: map<Id, Policy.Capability>, rules: seq<Policy.Rule>)
  {
    predicate Valid() { forall c :: c in connectors ==> connectors[c].connectorId == c }
  }

  datatype Reason =
    | ConnectorUnavailable | ConfigurationDrift | CapabilityNotRegistered | ConnectorDrift
    | ConnectorVersionDrift | PlanScopeDrift | PlanConfigurationDrift | ApprovalRequired
    | ApprovalInvalid | NotUsable(code: Policy.ReasonCode) | InvalidCheckpoint

  /** The outcome of the checks that precede a claim; a malformed permission request raises. */
  datatype Verdict = Cleared(authority: Policy.UseDecision) | Refused(reason: Reason) | Raises

  function RequestFor(id: Id, spec: Spec): Policy.PermissionRequest {
    Policy.PermissionRequest(
      id, spec.principal, spec.purpose, spec.capabilityId, spec.operation, spec.domain,
      spec.classification, spec.resourceScope)
  }

  function PlanProblem(job: Job, now: Instant): Option<Reason> {
    if job.spec.plan.None? || !job.spec.plan.value.approvalRequired then None
    else
      var plan := job.spec.plan.value;
      if plan.scope != job.spec.resourceScope then Some(PlanScopeDrift)
      else if plan.configurationHash.Some? && plan.configurationHash.value != job.spec.configurationHash
      then Some(PlanConfigurationDrift)
      else if job.approval.None? then Some(ApprovalRequired)
      else if !job.approval.value.Matches(plan, now) then Some(ApprovalInvalid)
      else None
  }

  function Reauthorize(id: Id, job: Job, registry: map<Id, Policy.Capability>, rules: seq<Policy.Rule>, now: Instant)
    : Verdict
  {
    if job.spec.capabilityId !in registry then Refused(CapabilityNotRegistered)
    else if registry[job.spec.capabilityId].manifest.connectorId != job.spec.connectorId then Refused(ConnectorDrift)
    else if registry[job.spec.capabilityId].manifest.version != job.spec.connectorVersion
    then Refused(ConnectorVersionDrift)
    else if PlanProblem(job, now).Some? then Refused(PlanProblem(job, now).value)
    else if !RequestFor(id, job.spec).Valid() then Raises
    else
      var authority := Policy.Use(registry, rules, RequestFor(id, job.spec), now);
      if authority.IsUsable() then Cleared(authority) else Refused(NotUsable(authority.reason))
  }

  /** Every check run_next makes on a candidate before it claims. */
  function Check(id: Id, job: Job, checkpoint: Option<Checkpoint>, worker: Worker, now: Instant): Verdict {
    var spec := job.spec;
    if spec.connectorId !in worker.connectors then Refused(ConnectorUnavailable)
    else if spec.connectorId !in worker.configurationHashes
         || worker.configurationHashes[spec.connectorId] != spec.configurationHash
    then Refused(ConfigurationDrift)
    else
      var verdict := Reauthorize(id, job, worker.registry, worker.rules, now);
      if verdict.Cleared? && checkpoint.Some?
         && !Compatible(checkpoint.value, worker.connectors[spec.connectorId], spec.configurationHash)
      then Refused(InvalidCheckpoint) else verdict
  }

  // ----- What a cleared check means -----

  /** An approval-requiring plan covers exactly this job and is approved right now. */
  predicate PlanApproved(job: Job, now: Instant) {
    job.spec.plan.Some? && job.spec.plan.value.approvalRequired ==>
      var plan := job.spec.plan.value;
      && plan.scope == job.spec.resourceScope
      && plan.configurationHash in {None, Some(job.spec.configurationHash)}
      && job.approval.Some?
      && job.approval.value.planId == plan.planId && job.approval.value.planHash == plan.planHash
      && job.approval.value.scope == job.spec.resourceScope
      && (job.approval.value.expiresAt.Some? ==> now < job.approval.value.expiresAt.value)
  }

  /** The connector, its configuration and the registered capability are the ones the job was made for. */
  predicate SameConnector(job: Job, worker: Worker) {
    var spec := job.spec;
    && spec.connectorId in worker.connectors
    && spec.connectorId in worker.configurationHashes
    && worker.configurationHashes[spec.connectorId] == spec.configurationHash
    && spec.capabilityId in worker.registry
    && worker.registry[spec.capabilityId].manifest.connectorId == spec.connectorId
    && worker.registry[spec.capabilityId].manifest.version == spec.connectorVersion
  }

  ghost predicate Entitled(id: Id, job: Job, checkpoint: Option<Checkpoint>, worker: Worker, now: Instant) {
    && SameConnector(job, worker)
    && PlanApproved(job, now)
    && Policy.Authorised(worker.registry, worker.rules, RequestFor(id, job.spec), now)
    && (checkpoint.Some? ==>
          var c, connector := checkpoint.value, worker.connectors[job.spec.connectorId];
          && c.connectorId == connector.connectorId
          && c.connectorVersion == connector.version
          && c.configurationHash == job.spec.configurationHash)
  }

  lemma {:induction false} PlanProblemIff(job: Job, now: Instant)
    ensures PlanProblem(job, now).None? <==> PlanApproved(job, now)
  {
  }

  /** An active domain is never one that belongs to another tenant. */
  lemma {:induction false} AuthorisedIsWellFormed(
    registry: map<Id, Policy.Capability>, rules: seq<Policy.Rule>, request: Policy.PermissionRequest, now: Instant)
    requires Policy.Authorised(registry, rules, request, now)
    ensures request.Valid()
  {
  }

  /** The checks let a job through exactly when it is entitled to run. */
  lemma {:induction false} ClearedIffEntitled(
    id: Id, job: Job, checkpoint: Option<Checkpoint>, worker: Worker, now: Instant)
    ensures Check(id, job, checkpoint, worker, now).Cleared? <==> Entitled(id, job, checkpoint, worker, now)
  {
    var request := RequestFor(id, job.spec);
    PlanProblemIff(job, now);
    Policy.UsableIffAuthorised(worker.registry, worker.rules, request, now);
    if Policy.Authorised(worker.registry, worker.rules, request, now) {
      AuthorisedIsWellFormed(worker.registry, worker.rules, request, now);
    }
  }

  /**
   * The checks raise, leaving the job at the head of the queue, exactly for an otherwise acceptable job
   * whose security domain belongs to another tenant than its principal.
   */
  lemma {:induction false} RaisesIffForeignDomain(
    id: Id, job: Job, checkpoint: Option<Checkpoint>, worker: Worker, now: Instant)
    ensures Check(id, job, checkpoint, worker, now).Raises? <==>
      && SameConnector(job, worker) && PlanApproved(job, now)
      && job.spec.domain.tenant !in {None, Some(job.spec.principal.tenant)}
  {
    PlanProblemIff(job, now);
  }

  /** Everything a job can be refused for, each judged on its own. */
  ghost predicate Fault(id: Id, job: Job, checkpoint: Option<Checkpoint>, worker: Worker, now: Instant, r: Reason) {
    var spec := job.spec;
    var listed := spec.capabilityId in worker.registry;
    var gated := spec.plan.Some? && spec.plan.value.approvalRequired;
    match r
    case ConnectorUnavailable => spec.connectorId !in worker.connectors
    case ConfigurationDrift =>
      !(spec.connectorId in worker.configurationHashes && worker.configurationHashes[spec.connectorId] == spec.configurationHash)
    case CapabilityNotRegistered => !listed
    case ConnectorDrift => listed && worker.registry[spec.capabilityId].manifest.connectorId != spec.connectorId
    case ConnectorVersionDrift => listed && worker.registry[spec.capabilityId].manifest.version != spec.connectorVersion
    case PlanScopeDrift => gated && spec.plan.value.scope != spec.resourceScope
    case PlanConfigurationDrift =>
      gated && spec.plan.value.configurationHash.Some? && spec.plan.value.configurationHash.value != spec.configurationHash
    case ApprovalRequired => gated && job.approval.None?
    case ApprovalInvalid => gated && job.approval.Some? && (
      || job.approval.value.planId != spec.plan.value.planId || job.approval.value.planHash != spec.plan.value.planHash
      || job.approval.value.scope != spec.plan.value.scope
      || (job.approval.value.expiresAt.Some? && job.approval.value.expiresAt.value <= now))
    case NotUsable(code) =>
      && !Policy.Authorised(worker.registry, worker.rules, RequestFor(id, spec), now)
      && code == Policy.Use(worker.registry, worker.rules, RequestFor(id, spec), now).reason
    case InvalidCheckpoint =>
      && checkpoint.Some? && spec.connectorId in worker.connectors
      && var c, connector := checkpoint.value, worker.connectors[spec.connectorId];
         || c.connectorId != connector.connectorId || c.connectorVersion != connector.version
         || c.configurationHash != spec.configurationHash
  }

  function Turn(r: Reason): nat {
    match r
    case ConnectorUnavailable => 0 case ConfigurationDrift => 1 case CapabilityNotRegistered => 2
    case ConnectorDrift => 3 case ConnectorVersionDrift => 4 case PlanScopeDrift => 5
    case PlanConfigurationDrift => 6 case ApprovalRequired => 7 case ApprovalInvalid => 8
    case NotUsable(_) => 9 case InvalidCheckpoint => 10
  }

  /** A job is cleared when it has no fault, and refused for the first fault it has. */
  lemma {:induction false} RefusedForFirstFault(
    id: Id, job: Job, checkpoint: Option<Checkpoint>, worker: Worker, now: Instant)
    ensures var verdict := Check(id, job, checkpoint, worker, now);
      && (verdict.Cleared? <==> forall r :: !Fault(id, job, checkpoint, worker, now, r))
      && (verdict.Refused? ==>
            && Fault(id, job, checkpoint, worker, now, verdict.reason)
            && forall r :: Fault(id, job, checkpoint, worker, now, r) ==> Turn(verdict.reason) <= Turn(r))
  {
    var verdict := Check(id, job, checkpoint, worker, now);
    forall r | verdict.Cleared? ensures !Fault(id, job, checkpoint, worker, now, r) {
      ClearedHasNoFault(id, job, checkpoint, worker, now, r);
    }
    if verdict.Raises? {
      NotUsableFault(id, job, checkpoint, worker, now);
    } else if verdict.Refused? {
      RefusedHasFault(id, job, checkpoint, worker, now);
      forall r | Fault(id, job, checkpoint, worker, now, r) ensures Turn(verdict.reason) <= Turn(r) {
        NoEarlierFault(id, job, checkpoint, worker, now, r);
      }
    }
  }

  lemma {:induction false} ClearedHasNoFault(
    id: Id, job: Job, checkpoint: Option<Checkpoint>, worker: Worker, now: Instant, r: Reason)
    requires Check(id, job, checkpoint, worker, now).Cleared?
    ensures !Fault(id, job, checkpoint, worker, now, r)
  {
    ClearedIffEntitled(id, job, checkpoint, worker, now);
  }

  lemma {:induction false} RefusedHasFault(
    id: Id, job: Job, checkpoint: Option<Checkpoint>, worker: Worker, now: Instant)
    requires Check(id, job, checkpoint, worker, now).Refused?
    ensures Fault(id, job, checkpoint, worker, now, Check(id, job, checkpoint, worker, now).reason)
  {
    Policy.UsableIffAuthorised(worker.registry, worker.rules, RequestFor(id, job.spec), now);
  }

  lemma {:induction false} NoEarlierFault(
    id: Id, job: Job, checkpoint: Option<Checkpoint>, worker: Worker, now: Instant, r: Reason)
    requires Check(id, job, checkpoint, worker, now).Refused? && Fault(id, job, checkpoint, worker, now, r)
    ensures Turn(Check(id, job, checkpoint, worker, now).reason) <= Turn(r)
  {
    PlanProblemIff(job, now);
    Policy.UsableIffAuthorised(worker.registry, worker.rules, RequestFor(id, job.spec), now);
  }

  /** A foreign domain is also a fault of authority. */
  lemma {:induction false} NotUsableFault(
    id: Id, job: Job, checkpoint: Option<Checkpoint>, worker: Worker, now: Instant)
    requires !RequestFor(id, job.spec).Valid()
    ensures exists r :: Fault(id, job, checkpoint, worker, now, r)
  {
    var request := RequestFor(id, job.spec);
    if Policy.Authorised(worker.registry, worker.rules, request, now) {
      AuthorisedIsWellFormed(worker.registry, worker.rules, request, now);
    }
    assert Fault(id, job, checkpoint, worker, now,
                 NotUsable(Policy.Use(worker.registry, worker.rules, request, now).reason));
  }

  /** A new job for capability 0 of connector 0, without a plan, in the given security domain. */
  function PlainJob(domain: Policy.SecurityDomain): Job {
    var principal := Policy.Principal(0, 0, {Policy.SecurityDomain(0, None)}, 0);
    var spec := Spec(0, 0, 0, 0, 0, principal, 0, domain, Policy.Classification(0, 0), [], None, RetryPolicy(1, 0, {}), 0);
    Job(spec, Ready, None, 0, None, 0, None)
  }

  /** A worker with that connector, a ready registration and one rule that allows everything. */
  function PlainWorker(): Worker {
    var manifest := Policy.Manifest(0, 0, 0, {0}, {0});
    var runtime := Policy.Runtime(Policy.Ready, Policy.NotRequired, [], []);
    Worker(map[0 := Connector(0, 0)], map[0 := 0], map[0 := Policy.Capability(manifest, runtime)], [PlainRule()])
  }

  function PlainRule(): Policy.Rule {
    Policy.Rule(0, Policy.Allowed, {}, {}, {}, {}, {}, {}, {}, {}, {}, {}, None, None, None)
  }

  /** Entitlement is attainable. */
  lemma {:induction false} SomeJobIsEntitled(now: Instant)
    ensures PlainWorker().Valid() && PlainJob(Policy.SecurityDomain(0, None)).Valid()
    ensures Check(0, PlainJob(Policy.SecurityDomain(0, None)), None, PlainWorker(), now).Cleared?
  {
    var job, worker := PlainJob(Policy.SecurityDomain(0, None)), PlainWorker();
    var request := RequestFor(0, job.spec);
    assert PlainRule() in worker.rules && PlainRule().Matches(request);
    assert Policy.MostSpecific(PlainRule(), worker.rules, request) && PlainRule().Grants(now);
    assert forall r :: r in worker.rules ==> r == PlainRule();
    ClearedIffEntitled(0, job, None, worker, now);
  }

  /** And so is the raise: the same job in a domain of another tenant. */
  lemma {:induction false} SomeJobRaises(now: Instant)
    ensures PlainJob(Policy.SecurityDomain(0, Some(1))).Valid()
    ensures Check(0, PlainJob(Policy.SecurityDomain(0, Some(1))), None, PlainWorker(), now).Raises?
  {
    RaisesIffForeignDomain(0, PlainJob(Policy.SecurityDomain(0, Some(1))), None, PlainWorker(), now);
  }

  /** What the connector is handed, with the constructor's authority-binding check. */
  datatype ConnectorRequest = ConnectorRequest(
    principal: Policy.Principal, purpose: Id, domain: Policy.SecurityDomain,
    classification: Policy.Classification, capabilityId: Id, operation: Id,
    authority: Policy.UseDecision, scope: seq<Id>)
  {
    predicate Accepted() {
      && authority.IsUsable()
      && authority.request.principal == principal && authority.request.purpose == purpose
      && authority.request.domain == domain && authority.request.classification == classification
      && authority.request.capabilityId == capabilityId && authority.request.operation == operation
      && authority.request.resourceScope == scope
    }
  }

  function ExecutionRequest(claimed: Job, authority: Policy.UseDecision): ConnectorRequest {
    var spec := claimed.spec;
    ConnectorRequest(spec.principal, spec.purpose, spec.domain, spec.classification, spec.capabilityId,
                     spec.operation, authority, spec.resourceScope)
  }

  /** A claimed job with the checked specification always passes the binding check. */
  lemma {:induction false} BindingCannotFail(
    id: Id, job: Job, checkpoint: Option<Checkpoint>, worker: Worker, now: Instant, claimed: Job)
    requires Check(id, job, checkpoint, worker, now).Cleared? && claimed.spec == job.spec
    ensures ExecutionRequest(claimed, Check(id, job, checkpoint, worker, now).authority).Accepted()
  {
    assert Policy.Use(worker.registry, worker.rules, RequestFor(id, job.spec), now).request == RequestFor(id, job.spec);
  }
}
