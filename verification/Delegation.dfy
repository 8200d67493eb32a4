/**
 * The delegated authority ledger of development/delegation.py: grants, single-use operation claims, and
 * one global audit sequence carrying a hash chain per grant. A hash is a free constructor over the
 * hashed record, so it is injective by construction.
 */
module Delegation {
  import opened Sequences

  type Id = nat
  type Instant = int
  type Path = seq<Id>

  // ----- Grants and requests -----

  datatype Operation =
    | RepositoryRead | RepositoryWrite | Test | Lint | TypeCheck | StaticValidate
    | GitStage | GitCommit | GitPush
    | CalendarRead | InboxRead | LocalFilesRead
    | BudgetCheck | CredentialCheck | Preflight | DispatchBrief | ResultReview
    | Prohibited(code: Id)
    | Unknown(code: Id)

  predicate Delegable(op: Operation) { !op.Prohibited? && !op.Unknown? }

  predicate NeedsPath(op: Operation) { op in {RepositoryRead, RepositoryWrite} }

  predicate ReadsSource(op: Operation) { op in {CalendarRead, InboxRead, LocalFilesRead} }

  predicate ChangesGit(op: Operation) { op in {GitStage, GitCommit, GitPush} }

  predicate UsesProvider(op: Operation) { op in {BudgetCheck, CredentialCheck, Preflight, DispatchBrief, ResultReview} }

  datatype Branch = Feature(name: Id) | Main | Master | Protected(name: Id) | Release(name: Id) | OtherBranch(name: Id)

  /** Provider, model, policy, domain and classification as one destination, and the spending limits. */
  datatype Boundary = Boundary(
    destination: Id, requests: int, successes: int, retries: int, dailySpend: real, monthlySpend: real, outputTokens: int)

  const PA009: Boundary := Boundary(0, 2, 1, 1, 2.0, 20.0, 2000)
  const MAX_DURATION: int := 7 * 86400

  /** The source scopes, disclosure categories and credential mechanisms a grant may name. */
  const APPROVED_SOURCES: set<Id> := {0, 1, 2}
  const APPROVED_CATEGORIES: set<Id> := {0, 1, 2, 3}
  const APPROVED_CREDENTIALS: set<Id> := {0, 1}

  predicate IsWithin(path: Path, root: Path) { root <= path }

  datatype Grant = Grant(
    id: Id, owner: Id, root: Path, branch: Branch, startsAt: Instant, expiresAt: Instant,
    operations: set<Operation>, paths: set<Path>, sources: set<Id>, categories: set<Id>, credentials: set<Id>,
    boundary: Boundary)
  {
    predicate Valid() {
      && branch.Feature? && startsAt < expiresAt <= startsAt + MAX_DURATION
      && operations != {} && (forall op :: op in operations ==> Delegable(op))
      && paths != {} && (forall p :: p in paths ==> IsWithin(p, root))
      && sources <= APPROVED_SOURCES && categories <= APPROVED_CATEGORIES && credentials <= APPROVED_CREDENTIALS
      && boundary == PA009
    }
  }

  datatype Request = Request(
    operationId: Id, grantId: Id, owner: Id, operation: Operation, root: Path, branch: Branch, at: Instant,
    paths: seq<Path>, sources: seq<Id>, categories: seq<Id>, credential: Id, boundary: Boundary,
    preflight: bool, controlsVerified: bool, validationPassed: bool, exactUpstream: bool)

  datatype Approval = Approval(owner: Id, grantId: Id, grant: Grant, approvedAt: Instant, expiresAt: Instant)

  datatype Denial =
    | NotActive | OutsideWindow | OwnerMismatch | PermanentlyProhibited | OutsideScope | BranchDrift | PathDrift
    | SourceDrift | PathMissing | SourceControlsMissing | GitPreconditions | BoundaryDrift | DispatchControls

  datatype GrantState = Active | Revoked | Killed

  /** The path leaves the repository or one of its components is a symbolic link. */
  predicate HasSymlink(path: Path, root: Path, links: set<Path>) {
    !IsWithin(path, root) || exists n | |root| <= n <= |path| :: path[..n] in links
  }

  predicate PathAllowed(path: Path, grant: Grant, links: set<Path>) {
    (exists root :: root in grant.paths && IsWithin(path, root)) && !HasSymlink(path, grant.root, links)
  }

  predicate ProviderMatches(grant: Grant, request: Request) {
    && request.boundary == grant.boundary
    && (forall c :: c in request.categories ==> c in grant.categories)
    && request.credential in grant.credentials
    && request.controlsVerified
  }

  function DenialReason(grant: Grant, state: GrantState, request: Request, links: set<Path>): Option<Denial> {
    if state != Active then Some(NotActive)
    else if !(grant.startsAt <= request.at < grant.expiresAt) then Some(OutsideWindow)
    else if request.owner != grant.owner then Some(OwnerMismatch)
    else if request.operation.Prohibited? then Some(PermanentlyProhibited)
    else if request.operation !in grant.operations then Some(OutsideScope)
    else if request.root != grant.root || request.branch != grant.branch || request.branch.Main?
         || request.branch.Master? || request.branch.Protected? || request.branch.Release? then Some(BranchDrift)
    else if exists p :: p in request.paths && !PathAllowed(p, grant, links) then Some(PathDrift)
    else if exists x :: x in request.sources && x !in grant.sources then Some(SourceDrift)
    else if NeedsPath(request.operation) && request.paths == [] then Some(PathMissing)
    else if ReadsSource(request.operation) && (request.sources == [] || !request.controlsVerified)
    then Some(SourceControlsMissing)
    else if ChangesGit(request.operation) && !(request.validationPassed && request.exactUpstream)
    then Some(GitPreconditions)
    else if UsesProvider(request.operation) && !ProviderMatches(grant, request) then Some(BoundaryDrift)
    else if request.operation.DispatchBrief? && (!request.preflight || !request.controlsVerified)
    then Some(DispatchControls)
    else None
  }

  // ----- The tables -----

  datatype GrantRow = GrantRow(grant: Grant, state: GrantState)

  datatype ClaimState = Claimed | Completed

  /** A claim's integrity hash: injective in everything it covers. */
  datatype Digest = Digest(
    operationId: Id, grantId: Id, operation: Operation, state: ClaimState, claimedAt: Instant, completedAt: Option<Instant>)

  datatype ClaimRow = ClaimRow(
    grantId: Id, operation: Operation, state: ClaimState, claimedAt: Instant, completedAt: Option<Instant>, digest: Digest)
  {
    predicate Verifies(operationId: Id) {
      digest == Digest(operationId, grantId, operation, state, claimedAt, completedAt)
    }
  }

  /** What a caller holds after a successful claim. */
  datatype Claim = Claim(grantId: Id, operationId: Id, operation: Operation, claimedAt: Instant)

  datatype EventType =
    GrantActivated | OperationClaimed | OperationDenied | OperationCompleted | GrantRevoked | GrantKilled

  datatype Note = NoNote | ForOperation(operation: Operation) | Because(denial: Denial)

  datatype Hash = Genesis | Hash(
    sequence: int, grantId: Id, event: EventType, note: Note, at: Instant, previous: Hash)

  datatype Row = Row(
    sequence: int, grantId: Id, event: EventType, note: Note, at: Instant, previous: Hash, hash: Hash)

  function HashOf(r: Row): Hash { Hash(r.sequence, r.grantId, r.event, r.note, r.at, r.previous) }

  datatype State = State(grants: map<Id, GrantRow>, claims: map<Id, ClaimRow>, audit: seq<Row>)

  const EMPTY: State := State(map[], map[], [])

  function Own(g: Id): Row -> bool { (r: Row) => r.grantId == g }

  /** The audit rows of one grant, in sequence order. */
  function LogOf(audit: seq<Row>, g: Id): seq<Row> { Filter(Own(g), audit) }

  function LastHash(log: seq<Row>): Hash { if log == [] then Genesis else log[|log| - 1].hash }

  function Highest(audit: seq<Row>): int {
    if audit == [] then 0 else Max(Highest(audit[..|audit| - 1]), audit[|audit| - 1].sequence)
  }

  function NextRow(audit: seq<Row>, g: Id, event: EventType, note: Note, now: Instant): Row {
    var previous := LastHash(LogOf(audit, g));
    var sequence := Highest(audit) + 1;
    Row(sequence, g, event, note, now, previous, Hash(sequence, g, event, note, now, previous))
  }

  function Audited(s: State, g: Id, event: EventType, note: Note, now: Instant): State {
    s.(audit := s.audit + [NextRow(s.audit, g, event, note, now)])
  }

  // ----- Steps: one transaction each, over any interleaving of grants -----

  datatype Step =
    | Activate(grant: Grant, approval: Approval, now: Instant)
    | MakeClaim(request: Request, links: set<Path>)
    | Complete(claim: Claim, now: Instant)
    | Revoke(grantId: Id, owner: Id, now: Instant)
    | Kill(grantId: Id, now: Instant)

  predicate ApprovalMatches(grant: Grant, approval: Approval, now: Instant) {
    && approval.owner == grant.owner && approval.grantId == grant.id && approval.grant == grant
    && approval.expiresAt == grant.expiresAt && approval.approvedAt <= now < grant.expiresAt
  }

  /** The step is carried out rather than refused. */
  predicate Accepts(s: State, step: Step) {
    match step
    case Activate(grant, approval, now) => grant.Valid() && ApprovalMatches(grant, approval, now) && grant.id !in s.grants
    case MakeClaim(request, links) =>
      && request.grantId in s.grants
      && DenialReason(s.grants[request.grantId].grant, s.grants[request.grantId].state, request, links).None?
      && request.operationId !in s.claims
    case Complete(claim, now) =>
      && claim.grantId in s.grants && s.grants[claim.grantId].state == Active
      && s.grants[claim.grantId].grant.startsAt <= now < s.grants[claim.grantId].grant.expiresAt
      && claim.operationId in s.claims
      && var row := s.claims[claim.operationId];
         row.grantId == claim.grantId && row.Verifies(claim.operationId)
         && row.operation == claim.operation && row.state == Claimed
    case Revoke(g, owner, now) => g in s.grants && owner == s.grants[g].grant.owner && s.grants[g].state == Active
    case Kill(g, now) => g in s.grants && s.grants[g].state == Active
  }

  function ClaimedRow(request: Request): ClaimRow {
    ClaimRow(request.grantId, request.operation, Claimed, request.at, None,
             Digest(request.operationId, request.grantId, request.operation, Claimed, request.at, None))
  }

  /** The stored claim time is kept; the new digest is computed from the caller's copy of it. */
  function CompletedRow(row: ClaimRow, claim: Claim, now: Instant): ClaimRow {
    row.(state := Completed, completedAt := Some(now),
         digest := Digest(claim.operationId, claim.grantId, claim.operation, Completed, claim.claimedAt, Some(now)))
  }

  function Ended(s: State, g: Id, state: GrantState, event: EventType, now: Instant): State
    requires g in s.grants
  {
    Audited(s.(grants := s.grants[g := s.grants[g].(state := state)]), g, event, NoNote, now)
  }

  /** A refused step changes nothing, except that a denied claim on a known grant is audited. */
  function Next(s: State, step: Step): State {
    if Accepts(s, step) then
      match step
      case Activate(grant, _, now) =>
        Audited(s.(grants := s.grants[grant.id := GrantRow(grant, Active)]), grant.id, GrantActivated, NoNote, now)
      case MakeClaim(request, _) =>
        Audited(s.(claims := s.claims[request.operationId := ClaimedRow(request)]), request.grantId,
                OperationClaimed, ForOperation(request.operation), request.at)
      case Complete(claim, now) =>
        Audited(s.(claims := s.claims[claim.operationId := CompletedRow(s.claims[claim.operationId], claim, now)]),
                claim.grantId, OperationCompleted, ForOperation(claim.operation), now)
      case Revoke(g, _, now) => Ended(s, g, Revoked, GrantRevoked, now)
      case Kill(g, now) => Ended(s, g, Killed, GrantKilled, now)
    else if step.MakeClaim? && step.request.grantId in s.grants then
      var row := s.grants[step.request.grantId];
      var denial := DenialReason(row.grant, row.state, step.request, step.links);
      if denial.Some?
      then Audited(s, step.request.grantId, OperationDenied, Because(denial.value), step.request.at) else s
    else s
  }

  function Run(steps: seq<Step>): State {
    if steps == [] then EMPTY else Next(Run(steps[..|steps| - 1]), steps[|steps| - 1])
  }

  // ----- audit_events -----

  /** The chain check over one grant's rows. */
  predicate Chained(log: seq<Row>, g: Id) {
    log == [] || (
      var last := log[|log| - 1];
      && Chained(log[..|log| - 1], g)
      && last.grantId == g && last.previous == LastHash(log[..|log| - 1]) && last.hash == HashOf(last))
  }

  datatype Entry = Entry(event: EventType, note: Note, at: Instant)

  method AuditEvents(audit: seq<Row>, g: Id) returns (events: Option<seq<Entry>>)
    ensures events.Some? <==> Chained(LogOf(audit, g), g)
    ensures events.Some? ==> events.value == Entries(LogOf(audit, g))
  {
    var rows := LogOf(audit, g);
    var previous := Genesis;
    var found: seq<Entry> := [];
    for i := 0 to |rows|
      invariant Chained(rows[..i], g) && previous == LastHash(rows[..i])
      invariant found == Entries(rows[..i])
    {
      var row := rows[i];
      var expected := Hash(row.sequence, g, row.event, row.note, row.at, row.previous);
      ChainedNext(audit, g, i);
      if row.previous != previous || row.hash != expected { return None; }
      previous := expected;
      found := found + [Entry(row.event, row.note, row.at)];
    }
    assert rows[..|rows|] == rows;
    return Some(found);
  }

  function Entries(log: seq<Row>): seq<Entry> {
    seq(|log|, i requires 0 <= i < |log| => Entry(log[i].event, log[i].note, log[i].at))
  }

  /** One more row keeps the chain exactly when it links to the last hash and carries its own. */
  lemma {:induction false} ChainedNext(audit: seq<Row>, g: Id, i: nat)
    requires i < |LogOf(audit, g)| && Chained(LogOf(audit, g)[..i], g)
    ensures var log := LogOf(audit, g); var row := log[i];
      var links := row.previous == LastHash(log[..i]) && row.hash == Hash(row.sequence, g, row.event, row.note, row.at, row.previous);
      && (Chained(log[..i + 1], g) <==> links) && (!links ==> !Chained(log, g))
      && LastHash(log[..i + 1]) == row.hash
      && Entries(log[..i + 1]) == Entries(log[..i]) + [Entry(row.event, row.note, row.at)]
  {
    var log := LogOf(audit, g);
    FilterMembers(Own(g), audit);
    assert log[i] in log;
    assert log[..i + 1][..i] == log[..i];
    ChainedPrefix(log, g, i + 1);
  }

  lemma {:induction false} ChainedPrefix(log: seq<Row>, g: Id, n: nat)
    requires n <= |log|
    ensures Chained(log, g) ==> Chained(log[..n], g)
    decreases |log|
  {
    if n == |log| {
      assert log[..n] == log;
    } else {
      ChainedPrefix(log[..|log| - 1], g, n);
      assert log[..|log| - 1][..n] == log[..n];
    }
  }

  /** The last hash of a log that passes pins down the whole log, content, order and sequence numbers. */
  lemma {:induction false} TamperEvident(log: seq<Row>, forged: seq<Row>, g: Id)
    requires Chained(log, g) && Chained(forged, g) && LastHash(log) == LastHash(forged)
    ensures log == forged
  {
    if log != [] && forged != [] {
      TamperEvident(log[..|log| - 1], forged[..|forged| - 1], g);
      assert log == log[..|log| - 1] + [log[|log| - 1]];
      assert forged == forged[..|forged| - 1] + [forged[|forged| - 1]];
    }
  }

  // ----- Every reachable log passes, in sequence -----

  ghost predicate LogsChain(s: State) {
    && (forall i :: 0 <= i < |s.audit| ==> s.audit[i].sequence == i + 1)
    && (forall g :: Chained(LogOf(s.audit, g), g))
  }

  lemma {:induction false} HighestIsLength(audit: seq<Row>)
    requires forall i :: 0 <= i < |audit| ==> audit[i].sequence == i + 1
    ensures Highest(audit) == |audit|
  {
    if audit != [] { HighestIsLength(audit[..|audit| - 1]); }
  }

  lemma {:induction false} LogSnoc(audit: seq<Row>, row: Row, g: Id)
    ensures LogOf(audit + [row], g) == if row.grantId == g then LogOf(audit, g) + [row] else LogOf(audit, g)
  {
    FilterSnoc(Own(g), audit, row);
  }

  lemma {:induction false} AuditedChains(s: State, g: Id, event: EventType, note: Note, now: Instant)
    requires LogsChain(s)
    ensures LogsChain(Audited(s, g, event, note, now))
  {
    var t := Audited(s, g, event, note, now);
    var row := NextRow(s.audit, g, event, note, now);
    HighestIsLength(s.audit);
    forall h ensures Chained(LogOf(t.audit, h), h) {
      LogSnoc(s.audit, row, h);
      var log := LogOf(s.audit, h);
      assert (log + [row])[..|log + [row]| - 1] == log;
    }
  }

  lemma {:induction false} StepKeepsChains(s: State, step: Step)
    requires LogsChain(s)
    ensures LogsChain(Next(s, step))
  {
    var t := Next(s, step);
    if t.audit != s.audit {
      var row := t.audit[|t.audit| - 1];
      AuditedChains(s, row.grantId, row.event, row.note, row.at);
    }
  }

  /** However the grants' operations interleave, every grant's log passes the audit check. */
  lemma {:induction false} EveryLogPasses(steps: seq<Step>)
    ensures LogsChain(Run(steps))
  {
    if steps == [] {
      assert forall g :: LogOf([], g) == [];
    } else {
      EveryLogPasses(steps[..|steps| - 1]);
      StepKeepsChains(Run(steps[..|steps| - 1]), steps[|steps| - 1]);
    }
  }

  // ----- The shape of a grant's log -----

  /** What the events so far allow next. */
  datatype Phase = Unborn | Live | Over(state: GrantState) | Malformed

  function Follow(phase: Phase, event: EventType): Phase {
    match event
    case GrantActivated => if phase.Unborn? then Live else Malformed
    case OperationClaimed => if phase.Live? then Live else Malformed
    case OperationCompleted => if phase.Live? then Live else Malformed
    case OperationDenied => if phase.Live? || phase.Over? then phase else Malformed
    case GrantRevoked => if phase.Live? then Over(Revoked) else Malformed
    case GrantKilled => if phase.Live? then Over(Killed) else Malformed
  }

  function PhaseOf(log: seq<Row>): Phase {
    if log == [] then Unborn else Follow(PhaseOf(log[..|log| - 1]), log[|log| - 1].event)
  }

  function Expected(s: State, g: Id): Phase {
    if g !in s.grants then Unborn
    else if s.grants[g].state == Active then Live else Over(s.grants[g].state)
  }

  ghost predicate LogsShaped(s: State) { forall g :: PhaseOf(LogOf(s.audit, g)) == Expected(s, g) }

  lemma {:induction false} PhaseSnoc(log: seq<Row>, row: Row)
    ensures PhaseOf(log + [row]) == Follow(PhaseOf(log), row.event)
  {
    assert (log + [row])[..|log + [row]| - 1] == log;
  }

  lemma {:induction false} AuditedShapes(s: State, t: State, row: Row)
    requires LogsShaped(s) && t.audit == s.audit + [row]
    requires forall g :: g != row.grantId ==> Expected(t, g) == Expected(s, g)
    requires Expected(t, row.grantId) == Follow(Expected(s, row.grantId), row.event)
    ensures LogsShaped(t)
  {
    forall g ensures PhaseOf(LogOf(t.audit, g)) == Expected(t, g) {
      LogSnoc(s.audit, row, g);
      PhaseSnoc(LogOf(s.audit, g), row);
    }
  }

  lemma {:induction false} AcceptedKeepsShape(s: State, step: Step)
    requires LogsShaped(s) && Accepts(s, step)
    ensures LogsShaped(Next(s, step))
  {
    AuditedShapes(s, Next(s, step), Next(s, step).audit[|s.audit|]);
  }

  lemma {:induction false} StepKeepsShape(s: State, step: Step)
    requires LogsShaped(s)
    ensures LogsShaped(Next(s, step))
  {
    if Accepts(s, step) {
      AcceptedKeepsShape(s, step);
    } else if Next(s, step).audit != s.audit {
      AuditedShapes(s, Next(s, step), Next(s, step).audit[|s.audit|]);
    }
  }

  lemma {:induction false} ReachableShape(steps: seq<Step>)
    ensures LogsShaped(Run(steps))
  {
    if steps == [] {
      assert forall g :: LogOf([], g) == [];
    } else {
      ReachableShape(steps[..|steps| - 1]);
      StepKeepsShape(Run(steps[..|steps| - 1]), steps[|steps| - 1]);
    }
  }

  predicate Ends(event: EventType) { event == GrantRevoked || event == GrantKilled }

  /** One activation first, at most one ending, and nothing but denials after the ending. */
  ghost predicate WellShaped(log: seq<Row>) {
    && (forall i :: 0 <= i < |log| ==> (log[i].event == GrantActivated <==> i == 0))
    && (forall i, j :: 0 <= i < j < |log| && Ends(log[i].event) ==> log[j].event == OperationDenied)
  }

  lemma {:induction false} PhaseMeansShape(log: seq<Row>)
    requires !PhaseOf(log).Malformed?
    ensures WellShaped(log)
    ensures PhaseOf(log).Unborn? <==> log == []
    ensures PhaseOf(log).Over? <==> exists i :: 0 <= i < |log| && Ends(log[i].event)
  {
    if log != [] {
      var front, last := log[..|log| - 1], log[|log| - 1];
      PhaseMeansShape(front);
      assert forall i :: 0 <= i < |front| ==> front[i] == log[i];
      if PhaseOf(front).Over? {
        var i :| 0 <= i < |front| && Ends(front[i].event);
        assert Ends(log[i].event);
      }
      if Ends(last.event) { assert Ends(log[|log| - 1].event); }
    }
  }

  /** A grant's log is one activation, then its operations, then perhaps one ending and only denials. */
  lemma {:induction false} LogsAreWellShaped(steps: seq<Step>, g: Id)
    ensures var s := Run(steps); var log := LogOf(s.audit, g);
      && WellShaped(log)
      && (log != [] <==> g in s.grants)
      && (g in s.grants ==> (s.grants[g].state == Active <==> forall i :: 0 <= i < |log| ==> !Ends(log[i].event)))
  {
    ReachableShape(steps);
    PhaseMeansShape(LogOf(Run(steps).audit, g));
  }

  // ----- Claims -----

  /** A claim belongs to a grant that allows its operation, and was made, and completed, inside its window. */
  ghost predicate ClaimSound(s: State, row: ClaimRow) {
    && row.grantId in s.grants
    && var grant := s.grants[row.grantId].grant;
       && grant.Valid() && row.operation in grant.operations && Delegable(row.operation)
       && grant.startsAt <= row.claimedAt < grant.expiresAt
       && (row.state == Completed <==> row.completedAt.Some?)
       && (row.completedAt.Some? ==> grant.startsAt <= row.completedAt.value < grant.expiresAt)
  }

  ghost predicate ClaimsSound(s: State) {
    && (forall g :: g in s.grants ==> s.grants[g].grant.Valid() && s.grants[g].grant.id == g)
    && (forall op :: op in s.claims ==> ClaimSound(s, s.claims[op]))
    && (forall op :: op in s.claims && s.claims[op].state == Claimed ==> s.claims[op].Verifies(op))
  }

  /** What a request must be for the grant to cover it. */
  ghost predicate Permitted(grant: Grant, state: GrantState, request: Request, links: set<Path>) {
    && state == Active && grant.startsAt <= request.at < grant.expiresAt
    && request.owner == grant.owner && request.root == grant.root && request.branch == grant.branch
    && request.operation in grant.operations
    && (forall p :: p in request.paths ==> Reaches(grant, p, links))
    && (forall x :: x in request.sources ==> x in grant.sources)
    && match request.operation
       case RepositoryRead => request.paths != []
       case RepositoryWrite => request.paths != []
       case GitStage => request.validationPassed && request.exactUpstream
       case GitCommit => request.validationPassed && request.exactUpstream
       case GitPush => request.validationPassed && request.exactUpstream
       case CalendarRead => request.sources != [] && request.controlsVerified
       case InboxRead => request.sources != [] && request.controlsVerified
       case LocalFilesRead => request.sources != [] && request.controlsVerified
       case BudgetCheck => InsideBoundary(grant, request)
       case CredentialCheck => InsideBoundary(grant, request)
       case Preflight => InsideBoundary(grant, request)
       case DispatchBrief => InsideBoundary(grant, request) && request.preflight
       case ResultReview => InsideBoundary(grant, request)
       case _ => true
  }

  /** The path lies under an allowed path and the repository, and is reached without a symbolic link. */
  ghost predicate Reaches(grant: Grant, path: Path, links: set<Path>) {
    && (exists root :: root in grant.paths && |root| <= |path| && path[..|root|] == root)
    && |grant.root| <= |path| && path[..|grant.root|] == grant.root
    && forall n :: |grant.root| <= n <= |path| ==> path[..n] !in links
  }

  /** The request stays inside the one approved provider boundary, with verified controls. */
  predicate InsideBoundary(grant: Grant, request: Request) {
    && request.boundary == PA009 && request.controlsVerified
    && request.credential in grant.credentials && forall c :: c in request.categories ==> c in grant.categories
  }

  /** Everything that stands between a request and its grant, each judged on its own. */
  ghost predicate Obstructed(grant: Grant, state: GrantState, request: Request, links: set<Path>, denial: Denial) {
    match denial
    case NotActive => state != Active
    case OutsideWindow => request.at < grant.startsAt || grant.expiresAt <= request.at
    case OwnerMismatch => request.owner != grant.owner
    case PermanentlyProhibited => request.operation.Prohibited?
    case OutsideScope => request.operation !in grant.operations
    case BranchDrift => request.root != grant.root || request.branch != grant.branch
    case PathDrift => exists p :: p in request.paths && !Reaches(grant, p, links)
    case SourceDrift => exists x :: x in request.sources && x !in grant.sources
    case PathMissing => request.operation in {RepositoryRead, RepositoryWrite} && request.paths == []
    case SourceControlsMissing =>
      request.operation in {CalendarRead, InboxRead, LocalFilesRead} && (request.sources == [] || !request.controlsVerified)
    case GitPreconditions =>
      request.operation in {GitStage, GitCommit, GitPush} && !(request.validationPassed && request.exactUpstream)
    case BoundaryDrift =>
      request.operation in {BudgetCheck, CredentialCheck, Preflight, DispatchBrief, ResultReview} && !InsideBoundary(grant, request)
    case DispatchControls => request.operation == DispatchBrief && !request.preflight
  }

  /** The order in which obstacles are reported. */
  function Place(denial: Denial): nat {
    match denial
    case NotActive => 0 case OutsideWindow => 1 case OwnerMismatch => 2 case PermanentlyProhibited => 3
    case OutsideScope => 4 case BranchDrift => 5 case PathDrift => 6 case SourceDrift => 7 case PathMissing => 8
    case SourceControlsMissing => 9 case GitPreconditions => 10 case BoundaryDrift => 11 case DispatchControls => 12
  }

  lemma {:induction false} AllowedIsReached(grant: Grant, path: Path, links: set<Path>)
    ensures PathAllowed(path, grant, links) <==> Reaches(grant, path, links)
  {
    assert forall root :: IsWithin(path, root) <==> |root| <= |path| && path[..|root|] == root;
  }

  lemma {:induction false} PathsReached(grant: Grant, paths: seq<Path>, links: set<Path>)
    ensures (forall p :: p in paths ==> PathAllowed(p, grant, links)) <==> forall p :: p in paths ==> Reaches(grant, p, links)
  {
    forall p | p in paths ensures PathAllowed(p, grant, links) <==> Reaches(grant, p, links) {
      AllowedIsReached(grant, p, links);
    }
  }

  ghost predicate FirstObstacle(grant: Grant, state: GrantState, request: Request, links: set<Path>, denial: Denial) {
    && Obstructed(grant, state, request, links, denial)
    && forall d :: Obstructed(grant, state, request, links, d) ==> Place(denial) <= Place(d)
  }

  /** A denial names the first obstacle of the request. */
  lemma {:induction false} DeniedByFirst(grant: Grant, state: GrantState, request: Request, links: set<Path>)
    requires grant.Valid()
    ensures var denial := DenialReason(grant, state, request, links);
      denial.Some? ==> FirstObstacle(grant, state, request, links, denial.value)
  {
    PathsReached(grant, request.paths, links);
    assert grant.branch.Feature? && grant.boundary == PA009;
  }

  /** The ordered refusals together deny exactly what a well-formed grant does not cover. */
  lemma {:induction false} DeniedUnlessPermitted(grant: Grant, state: GrantState, request: Request, links: set<Path>)
    requires grant.Valid()
    ensures DenialReason(grant, state, request, links).None? <==> Permitted(grant, state, request, links)
  {
    PathsReached(grant, request.paths, links);
    if request.operation in grant.operations { assert Delegable(request.operation); }
  }

  lemma {:induction false} PermittedFacts(grant: Grant, state: GrantState, request: Request, links: set<Path>)
    requires DenialReason(grant, state, request, links).None? && grant.Valid()
    ensures state == Active && grant.startsAt <= request.at < grant.expiresAt
    ensures request.operation in grant.operations && Delegable(request.operation)
  {
  }

  lemma {:induction false} ClaimKeepsSound(s: State, request: Request, links: set<Path>)
    requires ClaimsSound(s)
    ensures ClaimsSound(Next(s, MakeClaim(request, links)))
  {
    if Accepts(s, MakeClaim(request, links)) {
      PermittedFacts(s.grants[request.grantId].grant, s.grants[request.grantId].state, request, links);
      var t := Next(s, MakeClaim(request, links));
      forall op | op in t.claims ensures ClaimSound(t, t.claims[op]) {
        if op != request.operationId { assert ClaimSound(s, s.claims[op]); }
      }
    }
  }

  lemma {:induction false} CompleteKeepsSound(s: State, claim: Claim, now: Instant)
    requires ClaimsSound(s)
    ensures ClaimsSound(Next(s, Complete(claim, now)))
  {
    if Accepts(s, Complete(claim, now)) {
      var t := Next(s, Complete(claim, now));
      forall op | op in t.claims ensures ClaimSound(t, t.claims[op]) { assert ClaimSound(s, s.claims[op]); }
    }
  }

  lemma {:induction false} GrantStepKeepsSound(s: State, step: Step)
    requires ClaimsSound(s) && (step.Activate? || step.Revoke? || step.Kill?)
    ensures ClaimsSound(Next(s, step))
  {
    SameGrantsKeepSound(s, Next(s, step));
  }

  /** Grants may be added or ended, but no stored grant is rewritten. */
  lemma {:induction false} SameGrantsKeepSound(s: State, t: State)
    requires ClaimsSound(s) && t.claims == s.claims
    requires forall g :: g in s.grants ==> g in t.grants && t.grants[g].grant == s.grants[g].grant
    requires forall g :: g in t.grants ==> t.grants[g].grant.Valid() && t.grants[g].grant.id == g
    ensures ClaimsSound(t)
  {
    forall op | op in t.claims ensures ClaimSound(t, t.claims[op]) { assert ClaimSound(s, s.claims[op]); }
  }

  lemma {:induction false} StepKeepsSound(s: State, step: Step)
    requires ClaimsSound(s)
    ensures ClaimsSound(Next(s, step))
  {
    match step
    case MakeClaim(request, links) => ClaimKeepsSound(s, request, links);
    case Complete(claim, now) => CompleteKeepsSound(s, claim, now);
    case _ => GrantStepKeepsSound(s, step);
  }

  /** In every reachable state every claim was within an approved grant's window and scope. */
  lemma {:induction false} ReachableClaimsSound(steps: seq<Step>)
    ensures ClaimsSound(Run(steps))
  {
    if steps != [] {
      var s, step := Run(steps[..|steps| - 1]), steps[|steps| - 1];
      ReachableClaimsSound(steps[..|steps| - 1]);
      StepKeepsSound(s, step);
    }
  }

  /** A claim row is never removed, never reopened, and keeps what was claimed and when. */
  ghost predicate Continues(s: State, t: State) {
    forall op :: op in s.claims ==>
      && op in t.claims && t.claims[op].grantId == s.claims[op].grantId
      && t.claims[op].operation == s.claims[op].operation && t.claims[op].claimedAt == s.claims[op].claimedAt
      && (s.claims[op].state == Completed ==> t.claims[op] == s.claims[op])
  }

  lemma {:induction false} StepContinues(s: State, step: Step)
    ensures Continues(s, Next(s, step))
  {
  }

  lemma {:induction false} PrefixContinues(steps: seq<Step>, n: nat)
    requires n <= |steps|
    ensures Continues(Run(steps[..n]), Run(steps))
    decreases |steps|
  {
    if n == |steps| {
      assert steps[..n] == steps;
    } else {
      PrefixContinues(steps[..|steps| - 1], n);
      assert steps[..|steps| - 1][..n] == steps[..n];
      StepContinues(Run(steps[..|steps| - 1]), steps[|steps| - 1]);
    }
  }

  predicate ClaimsOperation(step: Step, op: Id) { step.MakeClaim? && step.request.operationId == op }

  predicate CompletesOperation(step: Step, op: Id) { step.Complete? && step.claim.operationId == op }

  lemma {:induction false} AfterAccepted(steps: seq<Step>, i: nat, j: nat)
    requires i < j <= |steps|
    ensures Continues(Next(Run(steps[..i]), steps[i]), Run(steps[..j]))
  {
    assert steps[..i + 1][..i] == steps[..i] && steps[..j][..i + 1] == steps[..i + 1];
    PrefixContinues(steps[..j], i + 1);
  }

  /** Over a whole run an operation identifier is claimed at most once, and completed at most once. */
  lemma {:induction false} OperationsAreSingleUse(steps: seq<Step>, i: nat, j: nat, op: Id)
    requires i < j < |steps| && Accepts(Run(steps[..i]), steps[i]) && Accepts(Run(steps[..j]), steps[j])
    ensures !(ClaimsOperation(steps[i], op) && ClaimsOperation(steps[j], op))
    ensures !(CompletesOperation(steps[i], op) && CompletesOperation(steps[j], op))
    ensures !(CompletesOperation(steps[i], op) && ClaimsOperation(steps[j], op))
  {
    AfterAccepted(steps, i, j);
  }

  /** Whatever is completed was claimed earlier, for the same grant and operation. */
  lemma {:induction false} CompletedWasClaimed(steps: seq<Step>, op: Id) returns (i: nat)
    requires op in Run(steps).claims
    ensures i < |steps| && ClaimsOperation(steps[i], op) && Accepts(Run(steps[..i]), steps[i])
    ensures steps[i].request.grantId == Run(steps).claims[op].grantId
    ensures steps[i].request.operation == Run(steps).claims[op].operation
    ensures steps[i].request.at == Run(steps).claims[op].claimedAt
  {
    var prior, step := steps[..|steps| - 1], steps[|steps| - 1];
    if op in Run(prior).claims {
      i := CompletedWasClaimed(prior, op);
      assert prior[..i] == steps[..i];
      StepContinues(Run(prior), step);
    } else {
      i := |steps| - 1;
    }
  }

  /**
   * After a completion the row passes its own integrity check exactly when the caller's copy of the claim
   * time is the stored one; the store itself never compares them.
   */
  lemma {:induction false} CompletedVerifiesIff(s: State, claim: Claim, now: Instant)
    requires Accepts(s, Complete(claim, now))
    ensures Next(s, Complete(claim, now)).claims[claim.operationId].Verifies(claim.operationId)
      <==> claim.claimedAt == s.claims[claim.operationId].claimedAt
  {
  }

  /** Completion never looks at the claim time it is handed. */
  lemma {:induction false} CompleteIgnoresClaimTime(s: State, claim: Claim, other: Instant, now: Instant)
    ensures Accepts(s, Complete(claim, now)) <==> Accepts(s, Complete(claim.(claimedAt := other), now))
  {
  }

  lemma {:induction false} RunSnoc(steps: seq<Step>, step: Step)
    ensures Run(steps + [step]) == Next(Run(steps), step)
  {
    assert (steps + [step])[..|steps + [step]| - 1] == steps;
  }

  /** It happens: two steps lead to a state whose claim, handed back with another time, completes and then fails its check. */
  lemma {:induction false} DriftedCompletionHappens() returns (steps: seq<Step>, claim: Claim, now: Instant)
    ensures Accepts(Run(steps), Complete(claim, now))
    ensures !Next(Run(steps), Complete(claim, now)).claims[claim.operationId].Verifies(claim.operationId)
  {
    var grant := Grant(0, 0, [], Feature(0), 0, 10, {Test}, {[]}, {}, {}, {}, PA009);
    var approval := Approval(0, 0, grant, 0, 10);
    var request := Request(0, 0, 0, Test, [], Feature(0), 1, [], [], [], 0, PA009, false, false, false, false);
    var activate, make := Activate(grant, approval, 0), MakeClaim(request, {});
    steps, claim, now := [] + [activate] + [make], Claim(0, 0, Test, 2), 3;
    RunSnoc([], activate);
    RunSnoc([] + [activate], make);
    assert Accepts(EMPTY, activate);
    var active := Run([] + [activate]);
    assert active.grants[0] == GrantRow(grant, Active) && active.claims == map[];
    assert Accepts(active, make);
    assert Run(steps).claims[0] == ClaimedRow(request);
    CompletedVerifiesIff(Run(steps), claim, now);
  }

  // ----- The log counts the claims -----

  function Events(log: seq<Row>, event: EventType): nat {
    if log == [] then 0 else Events(log[..|log| - 1], event) + if log[|log| - 1].event == event then 1 else 0
  }

  ghost function ClaimsOf(claims: map<Id, ClaimRow>, g: Id): set<Id> { set op | op in claims && claims[op].grantId == g }

  ghost function CompletionsOf(claims: map<Id, ClaimRow>, g: Id): set<Id> {
    set op | op in claims && claims[op].grantId == g && claims[op].state == Completed
  }

  ghost predicate Tallied(s: State, g: Id) {
    && Events(LogOf(s.audit, g), OperationClaimed) == |ClaimsOf(s.claims, g)|
    && Events(LogOf(s.audit, g), OperationCompleted) == |CompletionsOf(s.claims, g)|
  }

  lemma {:induction false} ClaimsGrow(claims: map<Id, ClaimRow>, op: Id, row: ClaimRow, g: Id)
    requires op !in claims && row.state == Claimed
    ensures |ClaimsOf(claims[op := row], g)| == |ClaimsOf(claims, g)| + if row.grantId == g then 1 else 0
    ensures CompletionsOf(claims[op := row], g) == CompletionsOf(claims, g)
  {
    assert ClaimsOf(claims[op := row], g) == ClaimsOf(claims, g) + if row.grantId == g then {op} else {};
  }

  lemma {:induction false} CompletionsGrow(claims: map<Id, ClaimRow>, op: Id, row: ClaimRow, g: Id)
    requires op in claims && claims[op].state == Claimed && row.state == Completed && row.grantId == claims[op].grantId
    ensures ClaimsOf(claims[op := row], g) == ClaimsOf(claims, g)
    ensures |CompletionsOf(claims[op := row], g)| == |CompletionsOf(claims, g)| + if row.grantId == g then 1 else 0
  {
    assert CompletionsOf(claims[op := row], g) == CompletionsOf(claims, g) + if row.grantId == g then {op} else {};
  }

  lemma {:induction false} EventsSnoc(log: seq<Row>, row: Row, event: EventType)
    ensures Events(log + [row], event) == Events(log, event) + if row.event == event then 1 else 0
  {
    assert (log + [row])[..|log + [row]| - 1] == log;
  }

  lemma {:induction false} AuditedTally(audit: seq<Row>, row: Row, g: Id, event: EventType)
    ensures Events(LogOf(audit + [row], g), event)
      == Events(LogOf(audit, g), event) + if row.grantId == g && row.event == event then 1 else 0
  {
    LogSnoc(audit, row, g);
    EventsSnoc(LogOf(audit, g), row, event);
  }

  lemma {:induction false} ClaimTallied(s: State, request: Request, links: set<Path>, g: Id)
    requires Tallied(s, g) && Accepts(s, MakeClaim(request, links))
    ensures Tallied(Next(s, MakeClaim(request, links)), g)
  {
    var row := NextRow(s.audit, request.grantId, OperationClaimed, ForOperation(request.operation), request.at);
    AuditedTally(s.audit, row, g, OperationClaimed);
    AuditedTally(s.audit, row, g, OperationCompleted);
    ClaimsGrow(s.claims, request.operationId, ClaimedRow(request), g);
  }

  lemma {:induction false} CompleteTallied(s: State, claim: Claim, now: Instant, g: Id)
    requires Tallied(s, g) && Accepts(s, Complete(claim, now))
    ensures Tallied(Next(s, Complete(claim, now)), g)
  {
    var row := NextRow(s.audit, claim.grantId, OperationCompleted, ForOperation(claim.operation), now);
    AuditedTally(s.audit, row, g, OperationClaimed);
    AuditedTally(s.audit, row, g, OperationCompleted);
    CompletionsGrow(s.claims, claim.operationId, CompletedRow(s.claims[claim.operationId], claim, now), g);
  }

  lemma {:induction false} OtherTallied(s: State, step: Step, g: Id)
    requires Tallied(s, g) && !(Accepts(s, step) && (step.MakeClaim? || step.Complete?))
    ensures Tallied(Next(s, step), g)
  {
    var t := Next(s, step);
    assert t.claims == s.claims;
    if t.audit != s.audit {
      AuditedTally(s.audit, t.audit[|s.audit|], g, OperationClaimed);
      AuditedTally(s.audit, t.audit[|s.audit|], g, OperationCompleted);
    }
  }

  /** Each grant's log records exactly as many claims and completions as the claim table holds for it. */
  lemma {:induction false} LogCountsClaims(steps: seq<Step>, g: Id)
    ensures Tallied(Run(steps), g)
  {
    if steps == [] {
      assert ClaimsOf(map[], g) == {} && CompletionsOf(map[], g) == {} && LogOf([], g) == [];
    } else {
      var s, step := Run(steps[..|steps| - 1]), steps[|steps| - 1];
      LogCountsClaims(steps[..|steps| - 1], g);
      if Accepts(s, step) && step.MakeClaim? { ClaimTallied(s, step.request, step.links, g); }
      else if Accepts(s, step) && step.Complete? { CompleteTallied(s, step.claim, step.now, g); }
      else { OtherTallied(s, step, g); }
    }
  }

  // ----- The store -----

  /** One row was appended for the grant, numbered next and linked to the grant's last row. */
  ghost predicate Appended(before: seq<Row>, after: seq<Row>, g: Id, event: EventType, note: Note, at: Instant) {
    && |after| == |before| + 1 && after[..|before|] == before
    && var row, previous := after[|before|], LastHash(LogOf(before, g));
       row == Row(|before| + 1, g, event, note, at, previous, Hash(|before| + 1, g, event, note, at, previous))
  }

  lemma {:induction false} AuditAppends(s: State, g: Id, event: EventType, note: Note, at: Instant)
    requires LogsChain(s)
    ensures Appended(s.audit, Audited(s, g, event, note, at).audit, g, event, note, at)
  {
    HighestIsLength(s.audit);
  }

  class DelegatedAuthorityStore {
    var grants: map<Id, GrantRow>
    var claims: map<Id, ClaimRow>
    var audit: seq<Row>

    function Snapshot(): State
      reads this
    {
      State(grants, claims, audit)
    }

    ghost predicate Valid()
      reads this
    {
      LogsChain(Snapshot()) && LogsShaped(Snapshot()) && ClaimsSound(Snapshot())
    }

    constructor ()
      ensures Valid() && Snapshot() == EMPTY
    {
      grants, claims, audit := map[], map[], [];
      new;
      EveryLogPasses([]);
      ReachableShape([]);
      ReachableClaimsSound([]);
    }

    /** Append one row: link it to the grant's last hash and number it after the highest row. */
    method Audit(g: Id, event: EventType, note: Note, now: Instant)
      modifies this`audit
      ensures Snapshot() == Audited(old(Snapshot()), g, event, note, now)
    {
      var previous, sequence := Genesis, 0;
      for i := 0 to |audit|
        invariant audit == old(audit)
        invariant previous == LastHash(LogOf(audit[..i], g)) && sequence == Highest(audit[..i])
      {
        LogSnoc(audit[..i], audit[i], g);
        assert audit[..i + 1] == audit[..i] + [audit[i]];
        if audit[i].grantId == g { previous := audit[i].hash; }
        sequence := Max(sequence, audit[i].sequence);
      }
      assert audit[..|audit|] == audit;
      audit := audit + [Row(sequence + 1, g, event, note, now, previous, Hash(sequence + 1, g, event, note, now, previous))];
    }

    method ActivateGrant(grant: Grant, approval: Approval, now: Instant) returns (ok: bool)
      requires Valid()
      modifies this
      ensures ok <==> Accepts(old(Snapshot()), Activate(grant, approval, now))
      ensures Valid() && Snapshot() == Next(old(Snapshot()), Activate(grant, approval, now))
      ensures ok <==>
        && grant.Valid() && grant.id !in old(grants) && now < grant.expiresAt
        && approval == Approval(grant.owner, grant.id, grant, approval.approvedAt, grant.expiresAt) && approval.approvedAt <= now
      ensures claims == old(claims)
      ensures ok ==>
        && grants == old(grants)[grant.id := GrantRow(grant, Active)]
        && Appended(old(audit), audit, grant.id, GrantActivated, NoNote, now)
      ensures !ok ==> grants == old(grants) && audit == old(audit)
    {
      AuditAppends(Snapshot(), grant.id, GrantActivated, NoNote, now);
      StepKeepsValid(Snapshot(), Activate(grant, approval, now));
      if !grant.Valid() || !ApprovalMatches(grant, approval, now) || grant.id in grants { return false; }
      grants := grants[grant.id := GrantRow(grant, Active)];
      Audit(grant.id, GrantActivated, NoNote, now);
      return true;
    }

    /** A denial is recorded and refused; a replayed operation identifier is refused without a record. */
    method ClaimOperation(request: Request, links: set<Path>) returns (claim: Option<Claim>)
      requires Valid()
      modifies this
      ensures claim.Some? <==> Accepts(old(Snapshot()), MakeClaim(request, links))
      ensures claim.Some? ==> claim.value == Claim(request.grantId, request.operationId, request.operation, request.at)
      ensures Valid() && Snapshot() == Next(old(Snapshot()), MakeClaim(request, links))
      ensures grants == old(grants)
      ensures request.grantId !in grants ==> claim.None? && claims == old(claims) && audit == old(audit)
      ensures request.grantId in grants ==>
        var grant, state := grants[request.grantId].grant, grants[request.grantId].state;
        var permitted := Permitted(grant, state, request, links);
        && (claim.Some? <==> permitted && request.operationId !in old(claims))
        && (claim.Some? ==>
              && claims == old(claims)[request.operationId := ClaimRow(
                   request.grantId, request.operation, Claimed, request.at, None,
                   Digest(request.operationId, request.grantId, request.operation, Claimed, request.at, None))]
              && Appended(old(audit), audit, grant.id, OperationClaimed, ForOperation(request.operation), request.at))
        && (claim.None? ==> claims == old(claims))
        && (permitted && claim.None? ==> audit == old(audit))
        && (!permitted ==> exists d ::
              FirstObstacle(grant, state, request, links, d)
              && Appended(old(audit), audit, grant.id, OperationDenied, Because(d), request.at))
    {
      StepKeepsValid(Snapshot(), MakeClaim(request, links));
      if request.grantId !in grants { return None; }
      var denial := DenialReason(grants[request.grantId].grant, grants[request.grantId].state, request, links);
      DeniedUnlessPermitted(grants[request.grantId].grant, grants[request.grantId].state, request, links);
      DeniedByFirst(grants[request.grantId].grant, grants[request.grantId].state, request, links);
      AuditAppends(Snapshot(), request.grantId, OperationClaimed, ForOperation(request.operation), request.at);
      if denial.Some? {
        AuditAppends(Snapshot(), request.grantId, OperationDenied, Because(denial.value), request.at);
      }
      if denial.Some? {
        Audit(request.grantId, OperationDenied, Because(denial.value), request.at);
        return None;
      }
      if request.operationId in claims { return None; }
      claims := claims[request.operationId := ClaimedRow(request)];
      Audit(request.grantId, OperationClaimed, ForOperation(request.operation), request.at);
      return Some(Claim(request.grantId, request.operationId, request.operation, request.at));
    }

    method CompleteClaim(claim: Claim, now: Instant) returns (ok: bool)
      requires Valid()
      modifies this
      ensures ok <==> Accepts(old(Snapshot()), Complete(claim, now))
      ensures Valid() && Snapshot() == Next(old(Snapshot()), Complete(claim, now))
      ensures ok <==>
        && claim.grantId in old(grants) && old(grants)[claim.grantId].state == Active
        && old(grants)[claim.grantId].grant.startsAt <= now < old(grants)[claim.grantId].grant.expiresAt
        && claim.operationId in old(claims) && old(claims)[claim.operationId].state == Claimed
        && old(claims)[claim.operationId].grantId == claim.grantId
        && old(claims)[claim.operationId].operation == claim.operation
      ensures grants == old(grants)
      ensures ok ==>
        && claims == old(claims)[claim.operationId := ClaimRow(
             claim.grantId, claim.operation, Completed, old(claims)[claim.operationId].claimedAt, Some(now),
             Digest(claim.operationId, claim.grantId, claim.operation, Completed, claim.claimedAt, Some(now)))]
        && Appended(old(audit), audit, claim.grantId, OperationCompleted, ForOperation(claim.operation), now)
      ensures !ok ==> claims == old(claims) && audit == old(audit)
    {
      AuditAppends(Snapshot(), claim.grantId, OperationCompleted, ForOperation(claim.operation), now);
      StepKeepsValid(Snapshot(), Complete(claim, now));
      if claim.grantId !in grants { return false; }
      var GrantRow(grant, state) := grants[claim.grantId];
      if state != Active || !(grant.startsAt <= now < grant.expiresAt) { return false; }
      if claim.operationId !in claims { return false; }
      var row := claims[claim.operationId];
      if row.grantId != claim.grantId || !row.Verifies(claim.operationId) { return false; }
      if row.operation != claim.operation || row.state != Claimed { return false; }
      claims := claims[claim.operationId := CompletedRow(row, claim, now)];
      Audit(claim.grantId, OperationCompleted, ForOperation(claim.operation), now);
      return true;
    }

    /** Revoke for the owner, or, with no owner named, engage the kill switch. */
    method Terminate(g: Id, owner: Option<Id>, now: Instant) returns (ok: bool)
      requires Valid()
      modifies this
      ensures var step := if owner.Some? then Revoke(g, owner.value, now) else Kill(g, now);
        (ok <==> Accepts(old(Snapshot()), step)) && Valid() && Snapshot() == Next(old(Snapshot()), step)
      ensures ok <==> g in old(grants) && old(grants)[g].state == Active && owner in {None, Some(old(grants)[g].grant.owner)}
      ensures claims == old(claims)
      ensures ok ==>
        && grants == old(grants)[g := GrantRow(old(grants)[g].grant, if owner.Some? then Revoked else Killed)]
        && Appended(old(audit), audit, g, if owner.Some? then GrantRevoked else GrantKilled, NoNote, now)
      ensures !ok ==> grants == old(grants) && audit == old(audit)
    {
      AuditAppends(Snapshot(), g, if owner.Some? then GrantRevoked else GrantKilled, NoNote, now);
      StepKeepsValid(Snapshot(), if owner.Some? then Revoke(g, owner.value, now) else Kill(g, now));
      if g !in grants { return false; }
      if owner.Some? && owner.value != grants[g].grant.owner { return false; }
      if grants[g].state != Active { return false; }
      grants := grants[g := grants[g].(state := if owner.Some? then Revoked else Killed)];
      Audit(g, if owner.Some? then GrantRevoked else GrantKilled, NoNote, now);
      return true;
    }

    /** On the store's own state the chain check never fails. */
    method ReadAudit(g: Id) returns (events: seq<Entry>)
      requires Valid()
      ensures events == Entries(LogOf(audit, g))
      ensures events != [] <==> g in grants
    {
      var read := AuditEvents(audit, g);
      assert Chained(LogOf(Snapshot().audit, g), g);
      events := read.value;
      assert PhaseOf(LogOf(Snapshot().audit, g)) == Expected(Snapshot(), g);
      PhaseMeansShape(LogOf(audit, g));
    }
  }

  lemma {:induction false} StepKeepsValid(s: State, step: Step)
    requires LogsChain(s) && LogsShaped(s) && ClaimsSound(s)
    ensures LogsChain(Next(s, step)) && LogsShaped(Next(s, step)) && ClaimsSound(Next(s, step))
  {
    StepKeepsChains(s, step);
    StepKeepsShape(s, step);
    StepKeepsSound(s, step);
  }
}
