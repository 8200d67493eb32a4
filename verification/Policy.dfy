/**
 * Permission policy evaluation (core/policy.py) and capability resolution
 * (core/registry.py). Identifiers are numbers, instants are integers.
 */
module Policy {
  import opened Sequences

  type Id = nat
  type Instant = int

  datatype SecurityDomain = SecurityDomain(domainId: Id, tenant: Option<Id>)

  datatype Classification = Classification(scheme: Id, level: Id)

  datatype Principal = Principal(id: Id, tenant: Id, activeDomains: set<SecurityDomain>, kind: Id)
  {
    predicate AllowsDomain(domain: SecurityDomain) {
      domain.tenant in {None, Some(tenant)} && domain in activeDomains
    }
  }

  datatype PermissionRequest = PermissionRequest(
    requestId: Id, principal: Principal, purpose: Id, capabilityId: Id, operation: Id,
    domain: SecurityDomain, classification: Classification, resourceScope: seq<Id>)
  {
    /** The constructor rejects a domain owned by another tenant. */
    predicate Valid() { domain.tenant in {None, Some(principal.tenant)} }
  }

  datatype Outcome =
    Allowed | AllowedWithinScope | ApprovalRequired | TemporarilyAllowed | Prohibited | Indeterminate

  datatype Signature = Signature(
    outcome: Outcome, scopes: set<Id>, expiresAt: Option<Instant>, approvalRef: Option<Id>)

  datatype Rule = Rule(
    ruleId: Id, outcome: Outcome,
    principalIds: set<Id>, principalKinds: set<Id>, tenantIds: set<Id>, domainIds: set<Id>,
    schemes: set<Id>, levels: set<Id>, purposeIds: set<Id>, capabilityIds: set<Id>,
    operations: set<Id>, resourceScopes: set<Id>,
    expiresAt: Option<Instant>, approverId: Option<Id>, approvalRef: Option<Id>)
  {
    predicate Valid() {
      && (outcome == TemporarilyAllowed ==> expiresAt.Some? && approvalRef.Some?)
      && (outcome != TemporarilyAllowed ==> expiresAt.None?)
      && (outcome == AllowedWithinScope ==> resourceScopes != {})
    }

    /** Number of non-empty selectors. */
    function Specificity(): nat {
      Given(principalIds) + Given(principalKinds) + Given(tenantIds) + Given(domainIds)
      + Given(schemes) + Given(levels) + Given(purposeIds) + Given(capabilityIds)
      + Given(operations) + Given(resourceScopes)
    }

    /** An empty selector admits everything; the scope selector must cover the whole requested scope. */
    predicate Matches(request: PermissionRequest) {
      && Admits(principalIds, request.principal.id)
      && Admits(principalKinds, request.principal.kind)
      && Admits(tenantIds, request.principal.tenant)
      && Admits(domainIds, request.domain.domainId)
      && Admits(schemes, request.classification.scheme)
      && Admits(levels, request.classification.level)
      && Admits(purposeIds, request.purpose)
      && Admits(capabilityIds, request.capabilityId)
      && Admits(operations, request.operation)
      && (resourceScopes != {} ==>
            request.resourceScope != [] && forall s :: s in request.resourceScope ==> s in resourceScopes)
    }

    function Signed(): Signature { Signature(outcome, resourceScopes, expiresAt, approvalRef) }

    /** The rule would let a request through at `now`. */
    predicate Grants(now: Instant) {
      || outcome == Allowed
      || outcome == AllowedWithinScope
      || (outcome == TemporarilyAllowed && expiresAt.Some? && now < expiresAt.value)
    }
  }

  /** The ten selectors of a rule. */
  datatype Selector =
    | OnPrincipal | OnKind | OnTenant | OnDomain | OnScheme | OnLevel | OnPurpose | OnCapability | OnOperation | OnScope

  function Selection(rule: Rule, which: Selector): set<Id> {
    match which
    case OnPrincipal => rule.principalIds case OnKind => rule.principalKinds case OnTenant => rule.tenantIds
    case OnDomain => rule.domainIds case OnScheme => rule.schemes case OnLevel => rule.levels
    case OnPurpose => rule.purposeIds case OnCapability => rule.capabilityIds
    case OnOperation => rule.operations case OnScope => rule.resourceScopes
  }

  /** What a request offers to a selector; every value must be selected, and there must be one. */
  function Offers(request: PermissionRequest, which: Selector): seq<Id> {
    match which
    case OnPrincipal => [request.principal.id] case OnKind => [request.principal.kind]
    case OnTenant => [request.principal.tenant] case OnDomain => [request.domain.domainId]
    case OnScheme => [request.classification.scheme] case OnLevel => [request.classification.level]
    case OnPurpose => [request.purpose] case OnCapability => [request.capabilityId]
    case OnOperation => [request.operation] case OnScope => request.resourceScope
  }

  predicate Excludes(rule: Rule, which: Selector, request: PermissionRequest) {
    && Selection(rule, which) != {}
    && (Offers(request, which) == [] || exists v :: v in Offers(request, which) && v !in Selection(rule, which))
  }

  /** Selectors only narrow: a rule matches exactly the requests that none of its selectors excludes. */
  lemma {:induction false} MatchesUnlessExcluded(rule: Rule, request: PermissionRequest)
    ensures rule.Matches(request) <==> forall which :: !Excludes(rule, which, request)
  {
    SingleOffer(rule, OnPrincipal, request, request.principal.id);
    SingleOffer(rule, OnKind, request, request.principal.kind);
    SingleOffer(rule, OnTenant, request, request.principal.tenant);
    SingleOffer(rule, OnDomain, request, request.domain.domainId);
    SingleOffer(rule, OnScheme, request, request.classification.scheme);
    SingleOffer(rule, OnLevel, request, request.classification.level);
    SingleOffer(rule, OnPurpose, request, request.purpose);
    SingleOffer(rule, OnCapability, request, request.capabilityId);
    SingleOffer(rule, OnOperation, request, request.operation);
    assert !Excludes(rule, OnScope, request) <==>
      rule.resourceScopes == {} ||
      (request.resourceScope != [] && forall s :: s in request.resourceScope ==> s in rule.resourceScopes);
  }

  lemma {:induction false} SingleOffer(rule: Rule, which: Selector, request: PermissionRequest, value: Id)
    requires Offers(request, which) == [value]
    ensures Excludes(rule, which, request) <==> !Admits(Selection(rule, which), value)
  {
    assert value in Offers(request, which);
  }

  function Without(rule: Rule, which: Selector): Rule {
    match which
    case OnPrincipal => rule.(principalIds := {}) case OnKind => rule.(principalKinds := {})
    case OnTenant => rule.(tenantIds := {}) case OnDomain => rule.(domainIds := {})
    case OnScheme => rule.(schemes := {}) case OnLevel => rule.(levels := {})
    case OnPurpose => rule.(purposeIds := {}) case OnCapability => rule.(capabilityIds := {})
    case OnOperation => rule.(operations := {}) case OnScope => rule.(resourceScopes := {})
  }

  lemma {:induction false} OthersStay(rule: Rule, which: Selector, w: Selector)
    ensures Selection(Without(rule, which), w) == if w == which then {} else Selection(rule, w)
  {
  }

  /** Dropping a selector lets exactly those requests in that only it kept out. */
  lemma {:induction false} SelectorsOnlyNarrow(rule: Rule, which: Selector, request: PermissionRequest)
    ensures rule.Matches(request) <==> Without(rule, which).Matches(request) && !Excludes(rule, which, request)
  {
    var less := Without(rule, which);
    MatchesUnlessExcluded(rule, request);
    MatchesUnlessExcluded(less, request);
    forall w ensures Excludes(less, w, request) <==> w != which && Excludes(rule, w, request) { OthersStay(rule, which, w); }
  }

  /** Specificity counts the given selectors: dropping one that is given lowers it by one, and a bare rule has none. */
  lemma {:induction false} SpecificityCounts(rule: Rule, which: Selector)
    ensures rule.Specificity() == Without(rule, which).Specificity() + (if Selection(rule, which) == {} then 0 else 1)
    ensures (forall w :: Selection(rule, w) == {}) ==> rule.Specificity() == 0
  {
    if forall w :: Selection(rule, w) == {} { BareRule(rule); }
  }

  lemma {:induction false} BareRule(rule: Rule)
    requires forall w :: Selection(rule, w) == {}
    ensures rule.Specificity() == 0
  {
    assert Selection(rule, OnPrincipal) == {} && Selection(rule, OnKind) == {} && Selection(rule, OnTenant) == {};
    assert Selection(rule, OnDomain) == {} && Selection(rule, OnScheme) == {} && Selection(rule, OnLevel) == {};
    assert Selection(rule, OnPurpose) == {} && Selection(rule, OnCapability) == {};
    assert Selection(rule, OnOperation) == {} && Selection(rule, OnScope) == {};
  }

  function Given(selector: set<Id>): nat { if selector == {} then 0 else 1 }

  predicate Admits(selector: set<Id>, value: Id) { selector == {} || value in selector }

  /** What the policy set constructor accepts: valid rules with unique identifiers. */
  ghost predicate ValidPolicySet(rules: seq<Rule>) {
    && (forall r :: r in rules ==> r.Valid())
    && (forall i, j :: 0 <= i < j < |rules| ==> rules[i].ruleId != rules[j].ruleId)
  }

  datatype PolicyRef = WholePolicy | ByRule(ruleId: Id) | DomainNotActive

  datatype PermissionDecision = PermissionDecision(
    requestId: Option<Id>, outcome: Outcome, policyRef: PolicyRef, effectiveScope: seq<Id>,
    expiresAt: Option<Instant>, approverId: Option<Id>, approvalRef: Option<Id>)
  {
    /** The decision constructor's checks. */
    predicate Valid() {
      && (outcome == TemporarilyAllowed ==> expiresAt.Some? && approvalRef.Some?)
      && (outcome != TemporarilyAllowed ==> expiresAt.None?)
      && (outcome == AllowedWithinScope ==> effectiveScope != [])
    }

    predicate IsAllowed(at: Instant) {
      || outcome == Allowed
      || outcome == AllowedWithinScope
      || (outcome == TemporarilyAllowed && expiresAt.Some? && at < expiresAt.value)
    }
  }

  function Undecided(requestId: Option<Id>, outcome: Outcome, ref: PolicyRef): PermissionDecision {
    PermissionDecision(requestId, outcome, ref, [], None, None, None)
  }

  function RuleDecision(request: PermissionRequest, rule: Rule): PermissionDecision {
    PermissionDecision(
      Some(request.requestId), rule.outcome, ByRule(rule.ruleId),
      if rule.resourceScopes != {} then request.resourceScope else [],
      rule.expiresAt, rule.approverId, rule.approvalRef)
  }

  predicate BySpecificity(a: Rule, b: Rule) {
    a.Specificity() > b.Specificity() || (a.Specificity() == b.Specificity() && a.ruleId <= b.ruleId)
  }

  predicate ByRuleId(a: Rule, b: Rule) { a.ruleId <= b.ruleId }

  function Matching(rules: seq<Rule>, request: PermissionRequest): seq<Rule> {
    Filter((r: Rule) => r.Matches(request), rules)
  }

  function Prohibitions(matches: seq<Rule>): seq<Rule> {
    Filter((r: Rule) => r.outcome == Prohibited, matches)
  }

  function Highest(matches: seq<Rule>): nat
    requires matches != []
  {
    if |matches| == 1 then matches[0].Specificity()
    else Max(matches[0].Specificity(), Highest(matches[1..]))
  }

  function Finalists(matches: seq<Rule>): seq<Rule>
    requires matches != []
  {
    var highest := Highest(matches);
    Filter((r: Rule) => r.Specificity() == highest, matches)
  }

  /** The first prohibition in (specificity descending, identifier) order. */
  function Barrier(matches: seq<Rule>): Option<Rule> {
    var prohibitions := Prohibitions(matches);
    if prohibitions == [] then None
    else
      OrderFacts(prohibitions);
      Some(Sort(BySpecificity, prohibitions)[0])
  }

  /** The lowest-identifier finalist, unless the finalists' signatures differ. */
  function Winner(matches: seq<Rule>): Option<Rule> {
    if matches == [] then None
    else
      var finalists := Finalists(matches);
      if |set r | r in finalists :: r.Signed()| != 1 then None
      else
        FinalistsFacts(matches);
        OrderFacts(finalists);
        Some(Sort(ByRuleId, finalists)[0])
  }

  /** PermissionEvaluator.evaluate. */
  function Evaluate(rules: seq<Rule>, asked: Option<PermissionRequest>, now: Instant): PermissionDecision
  {
    if asked.None? then Undecided(None, Indeterminate, WholePolicy)
    else
      var request := asked.value;
      if !request.principal.AllowsDomain(request.domain) then
        Undecided(Some(request.requestId), Prohibited, DomainNotActive)
      else
        var matches := Matching(rules, request);
        match Barrier(matches)
        case Some(prohibition) => RuleDecision(request, prohibition)
        case None =>
          match Winner(matches)
          case None => Undecided(Some(request.requestId), Indeterminate, WholePolicy)
          case Some(selected) =>
            if selected.outcome == TemporarilyAllowed && selected.expiresAt.Some?
               && now >= selected.expiresAt.value
            then Undecided(Some(request.requestId), Indeterminate, ByRule(selected.ruleId))
            else RuleDecision(request, selected)
  }

  // ----- Selection facts -----

  lemma {:induction false} OrderFacts(s: seq<Rule>)
    ensures TotalPreorder(BySpecificity) && TotalPreorder(ByRuleId)
    ensures s != [] ==>
      && Sort(BySpecificity, s) != [] && Sort(BySpecificity, s)[0] in s
      && Sort(ByRuleId, s) != [] && Sort(ByRuleId, s)[0] in s
  {
    if s != [] {
      SortHead(BySpecificity, s);
      SortHead(ByRuleId, s);
    }
  }

  lemma {:induction false} HighestIsMaximum(matches: seq<Rule>)
    requires matches != []
    ensures forall r :: r in matches ==> r.Specificity() <= Highest(matches)
    ensures exists r :: r in matches && r.Specificity() == Highest(matches)
  {
    assert matches[0] in matches;
    if |matches| > 1 {
      HighestIsMaximum(matches[1..]);
      assert matches == [matches[0]] + matches[1..];
    }
  }

  lemma {:induction false} FinalistsFacts(matches: seq<Rule>)
    requires matches != []
    ensures Finalists(matches) != []
    ensures forall r :: r in Finalists(matches) <==>
              r in matches && forall q :: q in matches ==> q.Specificity() <= r.Specificity()
  {
    HighestIsMaximum(matches);
    var highest := Highest(matches);
    FilterMembers((r: Rule) => r.Specificity() == highest, matches);
    var r :| r in matches && r.Specificity() == highest;
    assert r in Finalists(matches);
  }

  lemma {:induction false} MatchingMembers(rules: seq<Rule>, request: PermissionRequest)
    ensures forall r :: r in Matching(rules, request) <==> r in rules && r.Matches(request)
    ensures forall r :: r in Prohibitions(Matching(rules, request)) <==>
              r in rules && r.Matches(request) && r.outcome == Prohibited
  {
    FilterMembers((r: Rule) => r.Matches(request), rules);
    FilterMembers((r: Rule) => r.outcome == Prohibited, Matching(rules, request));
  }

  // ----- Registry -----

  datatype CapabilityStatus =
    Ready | Unavailable | AuthenticationRequired | PermissionRequired | NeedsApproval | Degraded
    | Disabled | Unknown

  datatype Authentication = NotRequired | Valid | Missing | Expired | Error | Undetermined

  datatype Manifest = Manifest(
    capabilityId: Id, connectorId: Id, version: Id, operations: set<Id>, domainScopes: set<Id>)

  datatype Runtime = Runtime(
    status: CapabilityStatus, authentication: Authentication,
    unavailableDependencies: seq<Id>, missingPermissions: seq<Id>)

  datatype Capability = Capability(manifest: Manifest, runtime: Runtime)

  datatype ReasonCode =
    CapabilityNotRegistered | OperationNotSupported | DomainNotSupported | CapabilityDisabled
    | RuntimeIndeterminate | AuthenticationNeeded | DependencyUnavailable | PermissionNeeded
    | ByStatus(status: CapabilityStatus) | PermissionProhibited | ApprovalNeeded | UseReady
    | PermissionIndeterminate

  /** CapabilityRegistry.resolve: the availability status and why. */
  function Resolve(registry: map<Id, Capability>, capabilityId: Id, operation: Id, domain: SecurityDomain)
    : (CapabilityStatus, ReasonCode)
  {
    if capabilityId !in registry then (Unknown, CapabilityNotRegistered)
    else
      var Capability(manifest, runtime) := registry[capabilityId];
      if operation !in manifest.operations then (Unavailable, OperationNotSupported)
      else if domain.domainId !in manifest.domainScopes then (Unavailable, DomainNotSupported)
      else if runtime.status == Disabled then (Disabled, CapabilityDisabled)
      else if runtime.status == Unknown then (Unknown, RuntimeIndeterminate)
      else if runtime.authentication !in {NotRequired, Valid} then
        (AuthenticationRequired, AuthenticationNeeded)
      else if runtime.unavailableDependencies != [] then (Unavailable, DependencyUnavailable)
      else if runtime.missingPermissions != [] then (PermissionRequired, PermissionNeeded)
      else (runtime.status, ByStatus(runtime.status))
  }

  datatype UseOutcome = UseReadyNow | UseApprovalRequired | UseProhibited | UseBlocked(status: CapabilityStatus)
                      | UseIndeterminate

  datatype UseDecision = UseDecision(
    request: PermissionRequest, capability: CapabilityStatus, permission: PermissionDecision,
    outcome: UseOutcome, reason: ReasonCode, evaluatedAt: Instant)
  {
    predicate IsUsable() { outcome == UseReadyNow }
  }

  /** evaluate_capability_use. */
  function Use(registry: map<Id, Capability>, rules: seq<Rule>, request: PermissionRequest, now: Instant)
    : UseDecision
  {
    var (status, reason) := Resolve(registry, request.capabilityId, request.operation, request.domain);
    var permission := Evaluate(rules, Some(request), now);
    if permission.outcome == Prohibited then
      UseDecision(request, status, permission, UseProhibited, PermissionProhibited, now)
    else if status != Ready then
      UseDecision(request, status, permission, UseBlocked(status), reason, now)
    else if permission.outcome == ApprovalRequired then
      UseDecision(request, status, permission, UseApprovalRequired, ApprovalNeeded, now)
    else if permission.IsAllowed(now) then
      UseDecision(request, status, permission, UseReadyNow, UseReady, now)
    else UseDecision(request, status, permission, UseIndeterminate, PermissionIndeterminate, now)
  }

  // ----- Theorems -----

  /** A rule matching the request such that no matching rule is more specific. */
  ghost predicate MostSpecific(r: Rule, rules: seq<Rule>, request: PermissionRequest) {
    && r in rules && r.Matches(request)
    && forall q :: q in rules && q.Matches(request) ==> q.Specificity() <= r.Specificity()
  }

  /** The capability is registered and offers the operation in the domain. */
  predicate Offered(registry: map<Id, Capability>, id: Id, operation: Id, domain: SecurityDomain) {
    id in registry && operation in registry[id].manifest.operations && domain.domainId in registry[id].manifest.domainScopes
  }

  predicate Authenticated(runtime: Runtime) { runtime.authentication in {NotRequired, Valid} }

  /** Nothing about the capability itself stands in the way of using it. */
  predicate Operational(registry: map<Id, Capability>, id: Id, operation: Id, domain: SecurityDomain) {
    && Offered(registry, id, operation, domain)
    && registry[id].runtime.status == Ready && Authenticated(registry[id].runtime)
    && registry[id].runtime.unavailableDependencies == [] && registry[id].runtime.missingPermissions == []
  }

  lemma {:induction false} ReadyIffOperational(registry: map<Id, Capability>, id: Id, operation: Id, domain: SecurityDomain)
    ensures Resolve(registry, id, operation, domain).0 == Ready <==> Operational(registry, id, operation, domain)
  {
  }

  /** Everything that can be wrong with a capability, each judged on its own. */
  predicate HasProblem(
    registry: map<Id, Capability>, id: Id, operation: Id, domain: SecurityDomain, problem: ReasonCode)
  {
    match problem
    case CapabilityNotRegistered => id !in registry
    case OperationNotSupported => id in registry && operation !in registry[id].manifest.operations
    case DomainNotSupported => id in registry && domain.domainId !in registry[id].manifest.domainScopes
    case CapabilityDisabled => id in registry && registry[id].runtime.status == Disabled
    case RuntimeIndeterminate => id in registry && registry[id].runtime.status == Unknown
    case AuthenticationNeeded => id in registry && !Authenticated(registry[id].runtime)
    case DependencyUnavailable => id in registry && registry[id].runtime.unavailableDependencies != []
    case PermissionNeeded => id in registry && registry[id].runtime.missingPermissions != []
    case ByStatus(status) => id in registry && registry[id].runtime.status == status && status !in {Ready, Disabled, Unknown}
    case _ => false
  }

  /** Which problem is reported when there are several: the least severity wins. */
  function Severity(problem: ReasonCode): nat {
    match problem
    case CapabilityNotRegistered => 0 case OperationNotSupported => 1 case DomainNotSupported => 2
    case CapabilityDisabled => 3 case RuntimeIndeterminate => 4 case AuthenticationNeeded => 5
    case DependencyUnavailable => 6 case PermissionNeeded => 7 case _ => 8
  }

  /** The status that goes with a problem. */
  function StatusOf(problem: ReasonCode): CapabilityStatus {
    match problem
    case OperationNotSupported => Unavailable case DomainNotSupported => Unavailable
    case CapabilityDisabled => Disabled case AuthenticationNeeded => AuthenticationRequired
    case DependencyUnavailable => Unavailable case PermissionNeeded => PermissionRequired
    case ByStatus(status) => status case _ => Unknown
  }

  /** A capability is operational or has a problem; the reported one is the first that it has. */
  lemma {:induction false} BlockedByFirstProblem(
    registry: map<Id, Capability>, id: Id, operation: Id, domain: SecurityDomain)
    ensures Operational(registry, id, operation, domain) <==>
      forall p :: !HasProblem(registry, id, operation, domain, p)
    ensures var (status, reason) := Resolve(registry, id, operation, domain);
      !Operational(registry, id, operation, domain) ==>
        && HasProblem(registry, id, operation, domain, reason) && status == StatusOf(reason)
        && forall p :: HasProblem(registry, id, operation, domain, p) ==> Severity(reason) <= Severity(p)
  {
    var (status, reason) := Resolve(registry, id, operation, domain);
    if !Operational(registry, id, operation, domain) {
      assert HasProblem(registry, id, operation, domain, reason);
    } else {
      forall p ensures !HasProblem(registry, id, operation, domain, p) { assert Offered(registry, id, operation, domain); }
    }
  }

  /** The declarative meaning of a usable decision. */
  ghost predicate Authorised(
    registry: map<Id, Capability>, rules: seq<Rule>, request: PermissionRequest, now: Instant)
  {
    && Operational(registry, request.capabilityId, request.operation, request.domain)
    && Granted(rules, request, now)
  }

  /** The domain is not active, or some matching rule prohibits. */
  ghost predicate Forbidden(rules: seq<Rule>, request: PermissionRequest) {
    || !request.principal.AllowsDomain(request.domain)
    || exists r :: r in rules && r.Matches(request) && r.outcome == Prohibited
  }

  /** The most specific rules agree, and what they agree on is that approval is needed. */
  ghost predicate NeedsRuleApproval(rules: seq<Rule>, request: PermissionRequest) {
    && (exists r :: MostSpecific(r, rules, request) && r.outcome == ApprovalRequired)
    && (forall r, q :: MostSpecific(r, rules, request) && MostSpecific(q, rules, request)
          ==> r.Signed() == q.Signed())
  }

  /** What the rules say: nothing prohibits, and the most specific rules agree on a grant. */
  ghost predicate Granted(rules: seq<Rule>, request: PermissionRequest, now: Instant) {
    && request.principal.AllowsDomain(request.domain)
    && (forall r :: r in rules && r.Matches(request) ==> r.outcome != Prohibited)
    && (exists r :: MostSpecific(r, rules, request) && r.Grants(now))
    && (forall r, q :: MostSpecific(r, rules, request) && MostSpecific(q, rules, request)
          ==> r.Signed() == q.Signed())
  }

  lemma {:induction false} SingletonSignatures(finalists: seq<Rule>)
    requires finalists != []
    ensures |set r | r in finalists :: r.Signed()| == 1 <==>
            forall r, q :: r in finalists && q in finalists ==> r.Signed() == q.Signed()
  {
    var signatures := set r | r in finalists :: r.Signed();
    assert finalists[0].Signed() in signatures;
    if forall r, q :: r in finalists && q in finalists ==> r.Signed() == q.Signed() {
      assert signatures == {finalists[0].Signed()};
    }
    if |signatures| == 1 {
      var only :| signatures == {only} by { SingletonSet(signatures); }
      forall r, q | r in finalists && q in finalists ensures r.Signed() == q.Signed() {
        assert r.Signed() in signatures && q.Signed() in signatures;
      }
    }
  }

  lemma {:induction false} SingletonSet<T>(s: set<T>)
    requires |s| == 1
    ensures exists x :: s == {x}
  {
    var x :| x in s;
    assert |s - {x}| == 0;
    assert s == {x};
  }

  lemma {:induction false} BarrierFacts(rules: seq<Rule>, request: PermissionRequest)
    ensures var b := Barrier(Matching(rules, request));
      && (b.None? <==> forall r :: r in rules && r.Matches(request) ==> r.outcome != Prohibited)
      && (b.Some? ==> b.value in rules && b.value.Matches(request) && b.value.outcome == Prohibited)
  {
    MatchingMembers(rules, request);
    var prohibitions := Prohibitions(Matching(rules, request));
    OrderFacts(prohibitions);
    if prohibitions != [] {
      assert prohibitions[0] in prohibitions;
    }
  }

  lemma {:induction false} WinnerFacts(rules: seq<Rule>, request: PermissionRequest)
    ensures var w := Winner(Matching(rules, request));
      && (w.Some? ==> MostSpecific(w.value, rules, request))
      && (w.Some? <==>
            && (exists r :: r in rules && r.Matches(request))
            && (forall r, q :: MostSpecific(r, rules, request) && MostSpecific(q, rules, request)
                  ==> r.Signed() == q.Signed()))
  {
    var matches := Matching(rules, request);
    MatchingMembers(rules, request);
    if matches == [] {
      assert forall r :: r in rules && r.Matches(request) ==> r in matches;
    } else {
      assert matches[0] in rules && matches[0].Matches(request);
      FinalistsFacts(matches);
      var finalists := Finalists(matches);
      assert forall r :: r in finalists <==> MostSpecific(r, rules, request);
      SingletonSignatures(finalists);
      OrderFacts(finalists);
    }
  }

  lemma {:induction false} AllowedIffGranted(rules: seq<Rule>, request: PermissionRequest, now: Instant)
    ensures Evaluate(rules, Some(request), now).IsAllowed(now) <==> Granted(rules, request, now)
  {
    BarrierFacts(rules, request);
    WinnerFacts(rules, request);
    WinnerSpeaksForAll(rules, request, now);
  }

  lemma {:induction false} WinnerSpeaksForAll(rules: seq<Rule>, request: PermissionRequest, now: Instant)
    ensures var winner := Winner(Matching(rules, request));
      winner.Some? ==> (winner.value.Grants(now) <==> exists r :: MostSpecific(r, rules, request) && r.Grants(now))
  {
    WinnerFacts(rules, request);
    var winner := Winner(Matching(rules, request));
    if winner.Some? {
      forall r | MostSpecific(r, rules, request) ensures r.Grants(now) == winner.value.Grants(now) {
        assert r.Signed() == winner.value.Signed();
      }
    }
  }

  /** A use is ready exactly when the declarative conditions hold, for every rule list and time. */
  lemma {:induction false} UsableIffAuthorised(
    registry: map<Id, Capability>, rules: seq<Rule>, request: PermissionRequest, now: Instant)
    ensures Use(registry, rules, request, now).IsUsable() <==> Authorised(registry, rules, request, now)
  {
    ReadyIffOperational(registry, request.capabilityId, request.operation, request.domain);
    AllowedIffGranted(rules, request, now);
    BarrierFacts(rules, request);
  }

  /**
   * Every use decision, by its inputs: prohibited, blocked by the capability's first problem, waiting for
   * approval, ready, or otherwise indeterminate.
   */
  lemma {:induction false} UseOutcomes(
    registry: map<Id, Capability>, rules: seq<Rule>, request: PermissionRequest, now: Instant)
    ensures var d := Use(registry, rules, request, now);
      var forbidden, operational :=
        Forbidden(rules, request), Operational(registry, request.capabilityId, request.operation, request.domain);
      && (d.outcome == UseProhibited <==> forbidden)
      && (d.outcome.UseBlocked? <==> !forbidden && !operational)
      && (d.outcome == UseApprovalRequired <==> !forbidden && operational && NeedsRuleApproval(rules, request))
      && (d.outcome == UseReadyNow <==> operational && Granted(rules, request, now))
      && (d.outcome == UseProhibited <==> d.reason == PermissionProhibited)
      && (d.outcome == UseApprovalRequired <==> d.reason == ApprovalNeeded)
      && (d.outcome == UseReadyNow <==> d.reason == UseReady)
      && (d.outcome == UseIndeterminate <==> d.reason == PermissionIndeterminate)
      && (d.outcome.UseBlocked? ==>
            && HasProblem(registry, request.capabilityId, request.operation, request.domain, d.reason)
            && d.outcome == UseBlocked(StatusOf(d.reason))
            && forall p :: HasProblem(registry, request.capabilityId, request.operation, request.domain, p) ==>
                 Severity(d.reason) <= Severity(p))
      && d.request == request && d.evaluatedAt == now
  {
    ReadyIffOperational(registry, request.capabilityId, request.operation, request.domain);
    BlockedByFirstProblem(registry, request.capabilityId, request.operation, request.domain);
    AllowedIffGranted(rules, request, now);
    EvaluationExplained(rules, request, now);
  }

  predicate RanksFirst(r: Rule, q: Rule) {
    r.Specificity() > q.Specificity() || (r.Specificity() == q.Specificity() && r.ruleId <= q.ruleId)
  }

  /** The decision carries what the rule says. */
  predicate Speaks(d: PermissionDecision, r: Rule, request: PermissionRequest) {
    && d.outcome == r.outcome && d.expiresAt == r.expiresAt && d.approverId == r.approverId
    && d.approvalRef == r.approvalRef
    && d.effectiveScope == (if r.resourceScopes == {} then [] else request.resourceScope)
  }

  /** The decision is the one of the first-ranked matching prohibition. */
  ghost predicate ProhibitedByFirst(d: PermissionDecision, rules: seq<Rule>, request: PermissionRequest) {
    exists r :: r in rules && r.Matches(request) && r.outcome == Prohibited
      && d.policyRef == ByRule(r.ruleId) && Speaks(d, r, request)
      && forall q :: q in rules && q.Matches(request) && q.outcome == Prohibited ==> RanksFirst(r, q)
  }

  /** The decision is the one of the most specific matching rule with the lowest identifier. */
  ghost predicate DecidedByMostSpecific(d: PermissionDecision, rules: seq<Rule>, request: PermissionRequest) {
    exists r :: MostSpecific(r, rules, request) && d.policyRef == ByRule(r.ruleId) && Speaks(d, r, request)
      && forall q :: MostSpecific(q, rules, request) ==> r.ruleId <= q.ruleId
  }

  /**
   * Every decision, by its inputs. A prohibition wins and the first-ranked one is named; otherwise agreeing
   * most specific rules decide, under the lowest identifier, unless their temporary grant has run out.
   */
  lemma {:induction false} EvaluationExplained(rules: seq<Rule>, request: PermissionRequest, now: Instant)
    ensures var d := Evaluate(rules, Some(request), now);
      && d.requestId == Some(request.requestId)
      && (d.outcome == Prohibited <==> Forbidden(rules, request))
      && (d.policyRef == DomainNotActive <==> !request.principal.AllowsDomain(request.domain))
      && (d.outcome == Prohibited && d.policyRef != DomainNotActive ==> ProhibitedByFirst(d, rules, request))
      && (d.outcome == ApprovalRequired <==> !Forbidden(rules, request) && NeedsRuleApproval(rules, request))
      && (d.policyRef == WholePolicy ==> d.outcome == Indeterminate)
      && (d.outcome !in {Prohibited, Indeterminate} ==> DecidedByMostSpecific(d, rules, request))
  {
    FirstRanked(rules, request);
    BarrierFacts(rules, request);
    if request.principal.AllowsDomain(request.domain) {
      match Barrier(Matching(rules, request))
      case Some(prohibition) => assert ProhibitedByFirst(RuleDecision(request, prohibition), rules, request);
      case None =>
        WinnerDecides(rules, request);
        if Winner(Matching(rules, request)).Some? {
          WinnerFacts(rules, request);
          var winner := Winner(Matching(rules, request)).value;
          assert winner.outcome != Prohibited;
          assert DecidedByMostSpecific(RuleDecision(request, winner), rules, request);
        }
    }
  }

  /** Approval is needed exactly when there is a winner that says so. */
  lemma {:induction false} WinnerDecides(rules: seq<Rule>, request: PermissionRequest)
    ensures var w := Winner(Matching(rules, request));
      NeedsRuleApproval(rules, request) <==> w.Some? && w.value.outcome == ApprovalRequired
  {
    WinnerFacts(rules, request);
    var winner := Winner(Matching(rules, request));
    if exists r :: MostSpecific(r, rules, request) && r.outcome == ApprovalRequired {
      var r :| MostSpecific(r, rules, request) && r.outcome == ApprovalRequired;
      assert r in rules && r.Matches(request);
      if winner.Some? { assert r.Signed() == winner.value.Signed(); }
    }
  }

  /** The named prohibition ranks first, and the named winner has the lowest identifier. */
  lemma {:induction false} FirstRanked(rules: seq<Rule>, request: PermissionRequest)
    ensures var b := Barrier(Matching(rules, request));
      b.Some? ==> forall q :: q in rules && q.Matches(request) && q.outcome == Prohibited ==> RanksFirst(b.value, q)
    ensures var w := Winner(Matching(rules, request));
      w.Some? ==> forall q :: MostSpecific(q, rules, request) ==> w.value.ruleId <= q.ruleId
  {
    var matches := Matching(rules, request);
    MatchingMembers(rules, request);
    OrderFacts(Prohibitions(matches));
    if Prohibitions(matches) != [] { SortHead(BySpecificity, Prohibitions(matches)); }
    if matches != [] {
      FinalistsFacts(matches);
      OrderFacts(Finalists(matches));
      SortHead(ByRuleId, Finalists(matches));
    }
  }

  /** Two policy sets holding the same rules in any order give the same decision, field by field. */
  lemma {:induction false} EvaluationIgnoresRuleOrder(
    rules: seq<Rule>, shuffled: seq<Rule>, asked: Option<PermissionRequest>, now: Instant)
    requires ValidPolicySet(rules) && ValidPolicySet(shuffled) && SameMembers(rules, shuffled)
    ensures Evaluate(rules, asked, now) == Evaluate(shuffled, asked, now)
  {
    if asked.Some? {
      var request := asked.value;
      var a, b := Matching(rules, request), Matching(shuffled, request);
      MatchingMembers(rules, request);
      MatchingMembers(shuffled, request);
      FilterDistinct((r: Rule) => r.Matches(request), rules);
      FilterDistinct((r: Rule) => r.Matches(request), shuffled);
      SameBarrier(rules, a, b);
      SameWinner(rules, a, b);
    }
  }

  lemma {:induction false} EmptyTogether<T(!new)>(s: seq<T>, t: seq<T>)
    requires SameMembers(s, t)
    ensures s == [] <==> t == []
  {
    if s != [] { assert s[0] in t; }
    if t != [] { assert t[0] in s; }
  }

  lemma {:induction false} SameBarrier(rules: seq<Rule>, a: seq<Rule>, b: seq<Rule>)
    requires ValidPolicySet(rules)
    requires Distinct(a) && Distinct(b) && SameMembers(a, b)
    requires forall r :: r in a ==> r in rules
    ensures Barrier(a) == Barrier(b)
  {
    FilterMembers((r: Rule) => r.outcome == Prohibited, a);
    FilterMembers((r: Rule) => r.outcome == Prohibited, b);
    EmptyTogether(Prohibitions(a), Prohibitions(b));
    SameSelection(BySpecificity, a, b, (r: Rule) => r.outcome == Prohibited, rules);
  }

  lemma {:induction false} SameHighest(a: seq<Rule>, b: seq<Rule>)
    requires a != [] && b != [] && SameMembers(a, b)
    ensures Highest(a) == Highest(b)
  {
    HighestIsMaximum(a);
    HighestIsMaximum(b);
  }

  lemma {:induction false} SameFinalists(rules: seq<Rule>, a: seq<Rule>, b: seq<Rule>)
    requires ValidPolicySet(rules) && a != [] && b != []
    requires Distinct(a) && Distinct(b) && SameMembers(a, b)
    requires forall r :: r in a ==> r in rules
    ensures Sort(ByRuleId, Finalists(a)) == Sort(ByRuleId, Finalists(b))
    ensures forall r :: r in Finalists(a) <==> r in Finalists(b)
  {
    SameHighest(a, b);
    var highest := Highest(a);
    SameSelection(ByRuleId, a, b, (r: Rule) => r.Specificity() == highest, rules);
    FilterMembers((r: Rule) => r.Specificity() == highest, a);
    FilterMembers((r: Rule) => r.Specificity() == highest, b);
  }

  lemma {:induction false} SameWinner(rules: seq<Rule>, a: seq<Rule>, b: seq<Rule>)
    requires ValidPolicySet(rules)
    requires Distinct(a) && Distinct(b) && SameMembers(a, b)
    requires forall r :: r in a ==> r in rules
    ensures Winner(a) == Winner(b)
  {
    EmptyTogether(a, b);
    if a != [] {
      SameFinalists(rules, a, b);
      assert (set r | r in Finalists(a) :: r.Signed()) == (set r | r in Finalists(b) :: r.Signed());
    }
  }

  lemma {:induction false} SameSelection(leq: (Rule, Rule) -> bool, a: seq<Rule>, b: seq<Rule>, p: Rule -> bool, rules: seq<Rule>)
    requires ValidPolicySet(rules) && leq in {BySpecificity, ByRuleId}
    requires Distinct(a) && Distinct(b) && SameMembers(a, b)
    requires forall r :: r in a ==> r in rules
    ensures Sort(leq, Filter(p, a)) == Sort(leq, Filter(p, b))
  {
    OrderFacts([]);
    FilterMembers(p, a);
    FilterMembers(p, b);
    FilterDistinct(p, a);
    FilterDistinct(p, b);
    SortPermutation(leq, Filter(p, a), Filter(p, b));
  }

  /** Whatever else the policy holds, inserting a prohibition never turns an unusable request usable. */
  lemma {:induction false} ProhibitionNeverEnables(
    registry: map<Id, Capability>, before: seq<Rule>, extra: Rule, after: seq<Rule>,
    request: PermissionRequest, now: Instant)
    requires extra.outcome == Prohibited
    requires Use(registry, before + [extra] + after, request, now).IsUsable()
    ensures Use(registry, before + after, request, now).IsUsable()
    ensures !extra.Matches(request)
  {
    var all, fewer := before + [extra] + after, before + after;
    UsableIffAuthorised(registry, all, request, now);
    UsableIffAuthorised(registry, fewer, request, now);
    assert extra in all;
    assert forall r :: r in all <==> r == extra || r in fewer;
    assert forall r :: MostSpecific(r, all, request) <==> MostSpecific(r, fewer, request);
  }

  /** Authority only decays: a use that is ready at some time was ready at every earlier time. */
  lemma {:induction false} UsableEarlier(
    registry: map<Id, Capability>, rules: seq<Rule>, request: PermissionRequest,
    earlier: Instant, now: Instant)
    requires earlier <= now
    requires Use(registry, rules, request, now).IsUsable()
    ensures Use(registry, rules, request, earlier).IsUsable()
  {
    UsableIffAuthorised(registry, rules, request, now);
    UsableIffAuthorised(registry, rules, request, earlier);
    var r :| MostSpecific(r, rules, request) && r.Grants(now);
    assert r.Grants(earlier);
  }

  /** No evaluation trips the decision constructor's own checks. */
  lemma {:induction false} DecisionsAreWellFormed(rules: seq<Rule>, asked: Option<PermissionRequest>, now: Instant)
    requires ValidPolicySet(rules)
    ensures Evaluate(rules, asked, now).Valid()
  {
    if asked.Some? {
      BarrierFacts(rules, asked.value);
      WinnerFacts(rules, asked.value);
    }
  }

  // ----- The mutable registry -----

  predicate ByCapability(a: Capability, b: Capability) {
    a.manifest.capabilityId <= b.manifest.capabilityId
  }

  predicate Listed(c: Capability, status: Option<CapabilityStatus>, operation: Option<Id>) {
    && (status.None? || c.runtime.status == status.value)
    && (operation.None? || operation.value in c.manifest.operations)
  }

  class CapabilityRegistry {
    var capabilities: map<Id, Capability>

    ghost predicate Valid()
      reads this
    {
      forall id :: id in capabilities ==> capabilities[id].manifest.capabilityId == id
    }

    constructor ()
      ensures Valid() && capabilities == map[]
    {
      capabilities := map[];
    }

    /** Refuses a duplicate identifier and leaves the registry alone. */
    method Register(manifest: Manifest, runtime: Runtime) returns (accepted: bool)
      requires Valid()
      modifies this
      ensures Valid()
      ensures accepted <==> manifest.capabilityId !in old(capabilities)
      ensures capabilities ==
        if accepted then old(capabilities)[manifest.capabilityId := Capability(manifest, runtime)]
        else old(capabilities)
    {
      accepted := manifest.capabilityId !in capabilities;
      if accepted {
        capabilities := capabilities[manifest.capabilityId := Capability(manifest, runtime)];
      }
    }

    method Unregister(id: Id) returns (removed: Option<Capability>)
      requires Valid()
      modifies this
      ensures Valid()
      ensures id in old(capabilities) ==> removed == Some(old(capabilities)[id])
      ensures id !in old(capabilities) ==> removed == None
      ensures capabilities == old(capabilities) - {id}
    {
      if id in capabilities {
        removed := Some(capabilities[id]);
        capabilities := capabilities - {id};
      } else {
        removed := None;
        assert capabilities - {id} == capabilities;
      }
    }

    /** Exactly the matching capabilities, once each, in identifier order. */
    method List(status: Option<CapabilityStatus>, operation: Option<Id>) returns (listed: seq<Capability>)
      requires Valid()
      ensures Sorted(ByCapability, listed) && Distinct(listed)
      ensures forall c :: c in listed <==>
                c.manifest.capabilityId in capabilities
                && capabilities[c.manifest.capabilityId] == c && Listed(c, status, operation)
    {
      var matches := set id | id in capabilities && Listed(capabilities[id], status, operation)
                      :: capabilities[id];
      listed := SortKeys(ByCapability, matches);
    }

    /** evaluate_operation_candidates: one decision per capability offering the operation. */
    method EvaluateCandidates(rules: seq<Rule>, template: PermissionRequest, operation: Id, now: Instant)
      returns (candidates: seq<Id>, decisions: seq<UseDecision>)
      requires Valid()
      ensures |candidates| == |decisions|
      ensures forall i, j :: 0 <= i < j < |candidates| ==> candidates[i] < candidates[j]
      ensures forall id :: id in candidates <==>
                id in capabilities && operation in capabilities[id].manifest.operations
      ensures forall i :: 0 <= i < |decisions| ==>
                decisions[i] == Use(capabilities, rules,
                  template.(capabilityId := candidates[i], operation := operation), now)
    {
      var listed := List(None, Some(operation));
      candidates, decisions := [], [];
      for k := 0 to |listed|
        invariant |candidates| == |decisions| == k
        invariant forall i :: 0 <= i < k ==> candidates[i] == listed[i].manifest.capabilityId
        invariant forall i :: 0 <= i < k ==>
          decisions[i] == Use(capabilities, rules,
            template.(capabilityId := candidates[i], operation := operation), now)
      {
        var id := listed[k].manifest.capabilityId;
        candidates := candidates + [id];
        decisions := decisions +
          [Use(capabilities, rules, template.(capabilityId := id, operation := operation), now)];
      }
      forall i, j | 0 <= i < j < |candidates| ensures candidates[i] < candidates[j] {
        assert listed[i] in listed && listed[j] in listed && ByCapability(listed[i], listed[j]);
      }
      forall id ensures id in candidates <==>
        id in capabilities && operation in capabilities[id].manifest.operations
      {
        if id in capabilities && operation in capabilities[id].manifest.operations {
          assert capabilities[id] in listed;
          var i :| 0 <= i < |listed| && listed[i] == capabilities[id];
          assert candidates[i] == id;
        }
        if id in candidates {
          var i :| 0 <= i < |candidates| && candidates[i] == id;
          assert listed[i] in listed;
        }
      }
    }
  }
}
