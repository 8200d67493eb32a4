/**
 * Context assembly (intelligence/context.py): per-source admission, removal of
 * citation identifiers claimed by two sources, balanced selection and coverage.
 */
module Context {
  import opened Sequences
  import opened Policy
  import opened RoundRobin

  datatype Reason =
    | UseRefused(code: ReasonCode) | ConnectorFailure | Reported(id: Id) | SourceTruncated | RecordsFiltered
    | SourceLimitReached | InstanceMismatch | CapabilityMismatch | InvalidScore | ScopeMismatch
    | ConflictingId | ContextLimitReached

  datatype Retrieval =
    | Failed
    | Plain(evidence: seq<Evidence>)
    | Batch(evidence: seq<Evidence>, preFilterCount: nat, truncated: bool, reasons: set<Id>)
  {
    /** SourceBatch's constructor check. */
    predicate Valid() { Batch? ==> preFilterCount >= |evidence| }
  }

  /** An adapter together with what its connector returns when asked. */
  datatype Adapter = Adapter(
    capabilityId: Id, instance: Id, operation: Id, scope: seq<Id>, retrieval: Retrieval)

  function Source(a: Adapter): Family { Family(a.capabilityId, a.instance) }

  predicate AdapterBefore(a: Adapter, b: Adapter) { FamilyBefore(Source(a), Source(b)) }

  datatype Asked = Asked(
    principal: Principal, purpose: Id, domain: SecurityDomain, classification: Classification)

  datatype Assembler = Assembler(
    registry: map<Id, Capability>, rules: seq<Rule>, perSourceLimit: int, totalLimit: int)

  datatype Status = Retrieved | Empty | SourceUnavailable | Partial

  datatype Coverage = Coverage(
    source: Family, status: Status, returned: int, admitted: int, selected: int,
    reasons: set<Reason>, preFilterCount: Option<nat>)
  {
    /** SourceCoverage's constructor checks. */
    predicate Valid() {
      && 0 <= selected <= admitted <= returned
      && (preFilterCount.Some? ==> preFilterCount.value >= returned)
    }
  }

  /** Why admission drops an item, in the order the checks are made. */
  function Objection(a: Adapter, asked: Asked, item: Evidence): Option<Reason> {
    if item.instance != 0 && item.instance != a.instance then Some(InstanceMismatch)
    else if item.capabilityId != a.capabilityId then Some(CapabilityMismatch)
    else if item.score.NotFinite? then Some(InvalidScore)
    else if exists p :: p in item.provenance
              && (p.domain != asked.domain || p.classification != asked.classification)
    then Some(ScopeMismatch)
    else None
  }

  function Tagged(a: Adapter, item: Evidence): Evidence { item.(instance := a.instance) }

  /** The items a source offers that pass every per-item check, tagged with the source instance. */
  function Candidates(a: Adapter, asked: Asked, items: seq<Evidence>): seq<Evidence> {
    if items == [] then []
    else
      var last := items[|items| - 1];
      Candidates(a, asked, items[..|items| - 1])
      + (if Objection(a, asked, last).None? then [Tagged(a, last)] else [])
  }

  /** Everything that can be wrong with an item, each judged on its own. */
  ghost predicate Faulty(a: Adapter, asked: Asked, item: Evidence, r: Reason) {
    match r
    case InstanceMismatch => item.instance !in {0, a.instance}
    case CapabilityMismatch => item.capabilityId != a.capabilityId
    case InvalidScore => !item.score.Finite?
    case ScopeMismatch => exists p :: p in item.provenance && p != Provenance(asked.domain, asked.classification)
    case _ => false
  }

  function Place(r: Reason): nat {
    match r case InstanceMismatch => 0 case CapabilityMismatch => 1 case InvalidScore => 2 case _ => 3
  }

  /** An item is dropped exactly when something is wrong with it, for the first thing that is. */
  lemma {:induction false} ObjectionIsFirstFault(a: Adapter, asked: Asked, item: Evidence)
    ensures Objection(a, asked, item).None? <==> forall r :: !Faulty(a, asked, item, r)
    ensures Objection(a, asked, item).Some? ==>
      && Faulty(a, asked, item, Objection(a, asked, item).value)
      && forall r :: Faulty(a, asked, item, r) ==> Place(Objection(a, asked, item).value) <= Place(r)
  {
    assert forall p :: p in item.provenance ==>
      (p == Provenance(asked.domain, asked.classification) <==> p.domain == asked.domain && p.classification == asked.classification);
    var o := Objection(a, asked, item);
    if o.Some? { assert Faulty(a, asked, item, o.value); }
  }

  /** What a source offers are its faultless items, under the source's own instance. */
  lemma {:induction false} CandidatesAre(a: Adapter, asked: Asked, items: seq<Evidence>, x: Evidence)
    ensures x in Candidates(a, asked, items) <==>
      exists item :: item in items && (forall r :: !Faulty(a, asked, item, r))
                     && x == Evidence(item.contextId, a.capabilityId, a.instance, item.score, item.provenance, item.body)
  {
    if items != [] {
      var init, last := items[..|items| - 1], items[|items| - 1];
      CandidatesAre(a, asked, init, x);
      ObjectionIsFirstFault(a, asked, last);
      assert items == init + [last];
      if forall r :: !Faulty(a, asked, last, r) {
        assert !Faulty(a, asked, last, CapabilityMismatch);
      }
    }
  }

  /** `x` is the only content offered under its identifier. */
  ghost predicate Unambiguous(x: Evidence, offered: seq<Evidence>) {
    x in offered && forall y :: y in offered && y.contextId == x.contextId ==> y == x
  }

  /** Some identifier is offered with two contents. */
  ghost predicate Ambiguous(offered: seq<Evidence>) {
    exists x :: x in offered && !Unambiguous(x, offered)
  }

  function Taken(items: seq<Evidence>, limit: nat): seq<Evidence> { items[..Min(limit, |items|)] }

  ghost predicate InScope(asked: Asked, e: Evidence) {
    e.score.Finite? && forall p :: p in e.provenance ==>
      p.domain == asked.domain && p.classification == asked.classification
  }

  lemma {:induction false} CandidatesInScope(a: Adapter, asked: Asked, items: seq<Evidence>)
    ensures forall x :: x in Candidates(a, asked, items) ==> InScope(asked, x) && FamilyOf(x) == Source(a)
    ensures |Candidates(a, asked, items)| <= |items|
  {
    if items != [] {
      CandidatesInScope(a, asked, items[..|items| - 1]);
    }
  }

  /** What the two dictionaries know after the candidates `offered`. */
  ghost predicate FirstSeen(seen: map<Id, Evidence>, conflicts: set<Id>, offered: seq<Evidence>) {
    && (forall id :: id in seen ==> seen[id] in offered && seen[id].contextId == id)
    && (forall x :: x in offered ==> x.contextId in seen)
    && (forall id :: id in conflicts <==>
          id in seen && exists x :: x in offered && x.contextId == id && x != seen[id])
  }

  predicate Contradicted(seen: map<Id, Evidence>, x: Evidence) {
    x.contextId in seen && seen[x.contextId] != x
  }

  lemma {:induction false} FirstSeenSnoc(seen: map<Id, Evidence>, conflicts: set<Id>, offered: seq<Evidence>, x: Evidence)
    requires FirstSeen(seen, conflicts, offered)
    ensures Contradicted(seen, x) ==> FirstSeen(seen, conflicts + {x.contextId}, offered + [x])
    ensures !Contradicted(seen, x) ==> FirstSeen(seen[x.contextId := x], conflicts, offered + [x])
  {
    assert forall y :: y in offered + [x] <==> y in offered || y == x;
  }

  ghost predicate Objected(a: Adapter, asked: Asked, items: seq<Evidence>, r: Reason) {
    exists x :: x in items && Objection(a, asked, x) == Some(r)
  }

  lemma {:induction false} ObjectedSnoc(a: Adapter, asked: Asked, items: seq<Evidence>, item: Evidence, r: Reason)
    ensures Objected(a, asked, items + [item], r) <==>
            Objected(a, asked, items, r) || Objection(a, asked, item) == Some(r)
  {
    assert item in items + [item];
    assert forall y :: y in items ==> y in items + [item];
  }

  /** First loop of admission: `seen` keeps the first content per identifier, `conflicts` the contradicted. */
  method Examine(a: Adapter, asked: Asked, items: seq<Evidence>)
    returns (order: seq<Id>, seen: map<Id, Evidence>, conflicts: set<Id>, reasons: set<Reason>)
    ensures Distinct(order) && |order| <= |items| && forall id :: id in order <==> id in seen
    ensures FirstSeen(seen, conflicts, Candidates(a, asked, items))
    ensures ReasonsGiven(a, asked, items, conflicts, reasons)
  {
    order, seen, conflicts, reasons := [], map[], {}, {};
    for k := 0 to |items|
      invariant Distinct(order) && |order| <= k && forall id :: id in order <==> id in seen
      invariant FirstSeen(seen, conflicts, Candidates(a, asked, items[..k]))
      invariant ReasonsGiven(a, asked, items[..k], conflicts, reasons)
    {
      var item := items[k];
      assert items[..k + 1][..k] == items[..k] && items[..k + 1] == items[..k] + [item];
      ReasonsSnoc(a, asked, items[..k], item, conflicts, reasons);
      match Objection(a, asked, item)
      case Some(reason) =>
        reasons := reasons + {reason};
      case None =>
        var tagged := Tagged(a, item);
        FirstSeenSnoc(seen, conflicts, Candidates(a, asked, items[..k]), tagged);
        if Contradicted(seen, tagged) {
          conflicts := conflicts + {tagged.contextId};
          reasons := reasons + {ConflictingId};
        } else {
          order := if tagged.contextId in seen then order else order + [tagged.contextId];
          seen := seen[tagged.contextId := tagged];
        }
    }
    assert items[..|items|] == items;
  }

  /** Every reason has a cause, and every cause its reason. */
  ghost predicate ReasonsGiven(a: Adapter, asked: Asked, items: seq<Evidence>, conflicts: set<Id>, reasons: set<Reason>) {
    forall r :: r in reasons <==> Objected(a, asked, items, r) || (r == ConflictingId && conflicts != {})
  }

  lemma {:induction false} ReasonsSnoc(
    a: Adapter, asked: Asked, items: seq<Evidence>, item: Evidence, conflicts: set<Id>, reasons: set<Reason>)
    requires ReasonsGiven(a, asked, items, conflicts, reasons)
    ensures var o := Objection(a, asked, item);
      if o.Some? then ReasonsGiven(a, asked, items + [item], conflicts, reasons + {o.value})
      else
        && ReasonsGiven(a, asked, items + [item], conflicts, reasons)
        && forall id :: ReasonsGiven(a, asked, items + [item], conflicts + {id}, reasons + {ConflictingId})
  {
    forall r { ObjectedSnoc(a, asked, items, item, r); }
  }

  lemma {:induction false} KeptIsUnambiguous(seen: map<Id, Evidence>, conflicts: set<Id>, offered: seq<Evidence>, x: Evidence)
    requires FirstSeen(seen, conflicts, offered)
    ensures x.contextId in seen && x.contextId !in conflicts && seen[x.contextId] == x <==> Unambiguous(x, offered)
  {
  }

  lemma {:induction false} ConflictsAreAmbiguities(seen: map<Id, Evidence>, conflicts: set<Id>, offered: seq<Evidence>)
    requires FirstSeen(seen, conflicts, offered)
    ensures conflicts != {} <==> Ambiguous(offered)
  {
    if id :| id in conflicts {
      var x :| x in offered && x.contextId == id && x != seen[id];
      assert !Unambiguous(x, offered);
    }
    if x :| x in offered && !Unambiguous(x, offered) {
      assert x.contextId in conflicts;
    }
  }

  /** Admission of one source: exactly the uncontradicted candidates, once each. */
  method Admit(a: Adapter, asked: Asked, items: seq<Evidence>) returns (kept: seq<Evidence>, reasons: set<Reason>)
    ensures forall x :: x in kept <==> Unambiguous(x, Candidates(a, asked, items))
    ensures DistinctIds(kept) && |kept| <= |items|
    ensures forall r :: r in reasons <==>
      Objected(a, asked, items, r) || (r == ConflictingId && Ambiguous(Candidates(a, asked, items)))
  {
    var order, seen, conflicts;
    order, seen, conflicts, reasons := Examine(a, asked, items);
    kept := [];
    for k := 0 to |order|
      invariant KeptSoFar(seen, conflicts, order[..k], kept)
    {
      KeptSnoc(seen, conflicts, order, k, kept);
      if order[k] !in conflicts {
        kept := kept + [seen[order[k]]];
      }
    }
    assert order[..|order|] == order;
    KeptAll(seen, conflicts, Candidates(a, asked, items), order, kept);
    ConflictsAreAmbiguities(seen, conflicts, Candidates(a, asked, items));
  }

  /** Second loop of admission: the uncontradicted contents of the identifiers visited so far. */
  ghost predicate KeptSoFar(seen: map<Id, Evidence>, conflicts: set<Id>, visited: seq<Id>, kept: seq<Evidence>) {
    && DistinctIds(kept) && |kept| <= |visited|
    && forall x :: x in kept <==>
         x.contextId in visited && x.contextId !in conflicts && x.contextId in seen && seen[x.contextId] == x
  }

  lemma {:induction false} KeptSnoc(seen: map<Id, Evidence>, conflicts: set<Id>, order: seq<Id>, k: nat, kept: seq<Evidence>)
    requires k < |order| && Distinct(order) && KeptSoFar(seen, conflicts, order[..k], kept)
    requires order[k] in seen && seen[order[k]].contextId == order[k]
    ensures KeptSoFar(seen, conflicts, order[..k + 1],
                      if order[k] in conflicts then kept else kept + [seen[order[k]]])
  {
    assert order[..k + 1] == order[..k] + [order[k]];
    assert order[k] !in order[..k];
    assert forall i :: 0 <= i < |kept| ==> kept[i] in kept;
  }

  lemma {:induction false} KeptAll(
    seen: map<Id, Evidence>, conflicts: set<Id>, offered: seq<Evidence>, order: seq<Id>, kept: seq<Evidence>)
    requires FirstSeen(seen, conflicts, offered) && KeptSoFar(seen, conflicts, order, kept)
    requires forall id :: id in order <==> id in seen
    ensures forall x :: x in kept <==> Unambiguous(x, offered)
  {
    forall x { KeptIsUnambiguous(seen, conflicts, offered, x); }
  }

  function UseOf(asm: Assembler, a: Adapter, asked: Asked, now: Instant): UseDecision {
    Use(asm.registry, asm.rules,
        PermissionRequest(a.capabilityId, asked.principal, asked.purpose, a.capabilityId, a.operation,
                          asked.domain, asked.classification, a.scope),
        now)
  }

  predicate Reached(asm: Assembler, a: Adapter, asked: Asked, now: Instant) {
    UseOf(asm, a, asked, now).IsUsable() && !a.retrieval.Failed?
  }

  /** The evidence a source contributes before sources are compared with one another. */
  ghost predicate Offers(asm: Assembler, a: Adapter, asked: Asked, now: Instant, x: Evidence)
    requires asm.perSourceLimit >= 0
  {
    Reached(asm, a, asked, now)
    && Unambiguous(x, Candidates(a, asked, Taken(a.retrieval.evidence, asm.perSourceLimit)))
  }

  /** Source-level reasons known before items are examined. */
  function BatchReasons(retrieval: Retrieval, limit: int): set<Reason>
    requires !retrieval.Failed?
  {
    (if retrieval.Batch? then
       (set r | r in retrieval.reasons :: Reported(r))
       + (if retrieval.truncated then {SourceTruncated} else {})
       + (if retrieval.preFilterCount > |retrieval.evidence| then {RecordsFiltered} else {})
     else {})
    + (if |retrieval.evidence| >= limit then {SourceLimitReached} else {})
  }

  /** Why a source's coverage is not clean: its own failure, or what happened to its evidence. */
  ghost predicate Explained(asm: Assembler, a: Adapter, asked: Asked, now: Instant, r: Reason)
    requires asm.perSourceLimit >= 0
  {
    var decision := UseOf(asm, a, asked, now);
    if !decision.IsUsable() then r == UseRefused(decision.reason)
    else if a.retrieval.Failed? then r == ConnectorFailure
    else
      var items := Taken(a.retrieval.evidence, asm.perSourceLimit);
      || (r == SourceLimitReached && |a.retrieval.evidence| >= asm.perSourceLimit)
      || (a.retrieval.Batch? && (
            || (r.Reported? && r.id in a.retrieval.reasons)
            || (r == SourceTruncated && a.retrieval.truncated)
            || (r == RecordsFiltered && a.retrieval.preFilterCount > |a.retrieval.evidence|)))
      || Objected(a, asked, items, r)
      || (r == ConflictingId && Ambiguous(Candidates(a, asked, items)))
  }

  /** One iteration of the adapter loop. */
  method Gather(asm: Assembler, a: Adapter, asked: Asked, now: Instant) returns (kept: seq<Evidence>, c: Coverage)
    requires asm.perSourceLimit >= 1 && a.retrieval.Valid()
    ensures forall x :: x in kept <==> Offers(asm, a, asked, now, x)
    ensures forall x :: x in kept ==> FamilyOf(x) == Source(a) && InScope(asked, x)
    ensures DistinctIds(kept)
    ensures c.Valid() && c.source == Source(a) && c.admitted == |kept| && c.selected == 0
    ensures c.status == SourceUnavailable <==> !Reached(asm, a, asked, now)
    ensures c.returned == if Reached(asm, a, asked, now) then |a.retrieval.evidence| else 0
    ensures forall r :: r in c.reasons <==> Explained(asm, a, asked, now, r)
    ensures Reached(asm, a, asked, now) ==>
      c.status == if c.reasons != {} then Partial else if kept != [] then Retrieved else Empty
    ensures c.preFilterCount == if Reached(asm, a, asked, now) && a.retrieval.Batch? then Some(a.retrieval.preFilterCount) else None
  {
    var decision := UseOf(asm, a, asked, now);
    kept := [];
    if !decision.IsUsable() {
      c := Coverage(Source(a), SourceUnavailable, 0, 0, 0, {UseRefused(decision.reason)}, None);
    } else if a.retrieval.Failed? {
      c := Coverage(Source(a), SourceUnavailable, 0, 0, 0, {ConnectorFailure}, None);
    } else {
      var items := Taken(a.retrieval.evidence, asm.perSourceLimit);
      var reasons;
      kept, reasons := Admit(a, asked, items);
      CandidatesInScope(a, asked, items);
      reasons := reasons + BatchReasons(a.retrieval, asm.perSourceLimit);
      c := Coverage(
        Source(a), if reasons != {} then Partial else if |kept| > 0 then Retrieved else Empty,
        |a.retrieval.evidence|, |kept|, 0, reasons,
        if a.retrieval.Batch? then Some(a.retrieval.preFilterCount) else None);
    }
  }

  // ----- Removing identifiers that two sources claim -----

  function HasId(id: Id): Evidence -> bool { (e: Evidence) => e.contextId == id }

  function Outside(ids: set<Id>): Evidence -> bool { (e: Evidence) => e.contextId !in ids }

  /** The `by_id` grouping: identifiers carried by more than one item. */
  method Collisions(evidence: seq<Evidence>) returns (ids: set<Id>)
    ensures forall id :: id in ids <==> Count(HasId(id), evidence) > 1
  {
    var byId: map<Id, seq<Evidence>> := map[];
    for k := 0 to |evidence|
      invariant forall id :: id in byId ==> byId[id] == Filter(HasId(id), evidence[..k])
      invariant forall id :: id !in byId ==> Filter(HasId(id), evidence[..k]) == []
    {
      var item := evidence[k];
      assert evidence[..k + 1] == evidence[..k] + [item];
      forall id { FilterSnoc(HasId(id), evidence[..k], item); }
      byId := byId[item.contextId := (if item.contextId in byId then byId[item.contextId] else []) + [item]];
    }
    assert evidence[..|evidence|] == evidence;
    ids := set id | id in byId && |byId[id]| > 1;
  }

  lemma {:induction false} CountBelowTwo(id: Id, evidence: seq<Evidence>)
    requires Distinct(evidence)
    ensures Count(HasId(id), evidence) <= 1 <==>
      forall x, y :: x in evidence && y in evidence && x.contextId == id == y.contextId ==> x == y
  {
    var s := Filter(HasId(id), evidence);
    FilterMembers(HasId(id), evidence);
    FilterDistinct(HasId(id), evidence);
    if |s| > 1 {
      assert s[0] in s && s[1] in s && s[0] != s[1];
    }
  }

  /** What survives is exactly the evidence whose identifier nobody else carries. */
  lemma {:induction false} SurvivorsAreUnambiguous(evidence: seq<Evidence>, ids: set<Id>)
    requires Distinct(evidence)
    requires forall id :: id in ids <==> Count(HasId(id), evidence) > 1
    ensures var survivors := Filter(Outside(ids), evidence);
      (forall x :: x in survivors <==> Unambiguous(x, evidence)) && DistinctIds(survivors)
  {
    var survivors := Filter(Outside(ids), evidence);
    FilterMembers(Outside(ids), evidence);
    FilterDistinct(Outside(ids), evidence);
    forall x | x in evidence ensures x in survivors <==> Unambiguous(x, evidence) {
      CountBelowTwo(x.contextId, evidence);
    }
    forall i, j | 0 <= i < j < |survivors| ensures survivors[i].contextId != survivors[j].contextId {
      assert survivors[i] in survivors && survivors[j] in survivors;
    }
  }

  function Collided(f: Family, ids: set<Id>): Evidence -> bool {
    (e: Evidence) => FamilyOf(e) == f && e.contextId in ids
  }

  lemma {:induction false} RemovedCount(f: Family, ids: set<Id>, evidence: seq<Evidence>)
    ensures Count(InFamily(f), evidence) - Count(Collided(f, ids), evidence)
         == Count(InFamily(f), Filter(Outside(ids), evidence))
  {
    var rest := (e: Evidence) => FamilyOf(e) == f && e.contextId !in ids;
    CountSplit(InFamily(f), Collided(f, ids), rest, evidence);
    FilterTwice(InFamily(f), Outside(ids), rest, evidence);
  }

  /** Coverage `c` after removing the collided items of its source from `evidence`. */
  ghost predicate Charged(before: Coverage, c: Coverage, evidence: seq<Evidence>, ids: set<Id>) {
    && c.Valid() && c.source == before.source && c.selected == 0 && c.returned == before.returned
    && c.admitted == Count(InFamily(c.source), Filter(Outside(ids), evidence))
    && c.admitted <= before.admitted && (c.admitted == before.admitted ==> c == before)
    && (c.admitted < before.admitted ==> c.status == Partial && c.reasons == before.reasons + {ConflictingId})
  }

  /** First coverage rewrite: every source is charged with exactly its removed items. */
  method ChargeCollisions(evidence: seq<Evidence>, ids: set<Id>, before: seq<Coverage>) returns (after: seq<Coverage>)
    requires forall i :: 0 <= i < |before| ==> before[i].Valid() && before[i].selected == 0
    requires forall i :: 0 <= i < |before| ==> before[i].admitted == Count(InFamily(before[i].source), evidence)
    ensures |after| == |before|
    ensures forall i :: 0 <= i < |after| ==> Charged(before[i], after[i], evidence, ids)
  {
    after := before;
    for k := 0 to |before|
      invariant |after| == |before| && after[k..] == before[k..]
      invariant forall i :: 0 <= i < k ==> Charged(before[i], after[i], evidence, ids)
    {
      var source := after[k];
      assert source == before[k];
      var removed := Count(Collided(source.source, ids), evidence);
      RemovedCount(source.source, ids, evidence);
      if removed > 0 {
        after := after[k := source.(
          status := Partial, admitted := source.admitted - removed, reasons := source.reasons + {ConflictingId})];
      }
    }
  }

  /** Coverage `c` after the selection `out` is recorded. */
  ghost predicate Recorded(before: Coverage, c: Coverage, out: seq<Evidence>) {
    && c.Valid() && c.source == before.source && c.returned == before.returned && c.admitted == before.admitted
    && c.selected == Count(InFamily(c.source), out)
    && c.reasons == before.reasons + (if c.selected < c.admitted then {ContextLimitReached} else {})
    && c.status == if c.reasons != {} && before.status != SourceUnavailable then Partial else before.status
  }

  /** Last coverage rewrite: selected counts and the limit reason. */
  method RecordSelection(out: seq<Evidence>, ghost pool: seq<Evidence>, before: seq<Coverage>)
    returns (after: seq<Coverage>)
    requires forall i :: 0 <= i < |before| ==> before[i].Valid()
    requires forall i :: 0 <= i < |before| ==> before[i].admitted == Count(InFamily(before[i].source), pool)
    requires forall f :: Count(InFamily(f), out) <= Count(InFamily(f), pool)
    ensures |after| == |before|
    ensures forall i :: 0 <= i < |after| ==> Recorded(before[i], after[i], out)
  {
    after := before;
    for k := 0 to |before|
      invariant |after| == |before| && after[k..] == before[k..]
      invariant forall i :: 0 <= i < k ==> Recorded(before[i], after[i], out)
    {
      var source := after[k];
      assert source == before[k];
      var selected := Count(InFamily(source.source), out);
      var reasons := source.reasons + (if selected < source.admitted then {ContextLimitReached} else {});
      after := after[k := source.(
        selected := selected, reasons := reasons,
        status := if reasons != {} && source.status != SourceUnavailable then Partial else source.status)];
    }
  }

  // ----- Selected counts add up -----

  function SumSelected(coverage: seq<Coverage>): int {
    if coverage == [] then 0
    else SumSelected(coverage[..|coverage| - 1]) + coverage[|coverage| - 1].selected
  }

  function FromSources(coverage: seq<Coverage>): Evidence -> bool {
    (e: Evidence) => exists i :: 0 <= i < |coverage| && coverage[i].source == FamilyOf(e)
  }

  ghost predicate DistinctSources(coverage: seq<Coverage>) {
    forall i, j :: 0 <= i < j < |coverage| ==> coverage[i].source != coverage[j].source
  }

  lemma {:induction false} SelectedAddsUp(coverage: seq<Coverage>, out: seq<Evidence>)
    requires DistinctSources(coverage)
    requires forall i :: 0 <= i < |coverage| ==> coverage[i].selected == Count(InFamily(coverage[i].source), out)
    ensures SumSelected(coverage) == Count(FromSources(coverage), out)
  {
    if coverage == [] {
      FilterNone(FromSources(coverage), out);
    } else {
      var init, last := coverage[..|coverage| - 1], coverage[|coverage| - 1];
      SelectedAddsUp(init, out);
      assert forall e :: FromSources(coverage)(e) == (FromSources(init)(e) || InFamily(last.source)(e));
      CountSplit(FromSources(coverage), FromSources(init), InFamily(last.source), out);
    }
  }

  // ----- The whole assembly -----

  datatype Assembled = Assembled(evidence: seq<Evidence>, coverage: seq<Coverage>)

  ghost predicate UniqueAdapters(adapters: seq<Adapter>) {
    forall i, j :: 0 <= i < j < |adapters| ==> Source(adapters[i]) != Source(adapters[j])
  }

  predicate BoundedLimits(asm: Assembler) { 1 <= asm.perSourceLimit <= 25 && 1 <= asm.totalLimit <= 100 }

  /** `_validate`: bounded limits and one adapter per capability and instance. */
  method Validate(asm: Assembler, adapters: seq<Adapter>) returns (ok: bool)
    ensures ok <==> BoundedLimits(asm) && UniqueAdapters(adapters)
  {
    if !BoundedLimits(asm) {
      return false;
    }
    var ids: set<Family> := {};
    for k := 0 to |adapters|
      invariant forall f :: f in ids <==> exists i :: 0 <= i < k && Source(adapters[i]) == f
      invariant UniqueAdapters(adapters[..k])
    {
      if Source(adapters[k]) in ids {
        return false;
      }
      ids := ids + {Source(adapters[k])};
    }
    assert adapters[..|adapters|] == adapters;
    return true;
  }

  /** The evidence gathered is exactly what the sources in `done` offer. */
  ghost predicate Pooled(asm: Assembler, asked: Asked, now: Instant, done: seq<Adapter>, evidence: seq<Evidence>)
    requires asm.perSourceLimit >= 1
  {
    && Distinct(evidence)
    && (forall x :: x in evidence <==> exists i :: 0 <= i < |done| && Offers(asm, done[i], asked, now, x))
  }

  /** The coverage of one source that has `n` items in the evidence. */
  ghost predicate Booked(asm: Assembler, asked: Asked, now: Instant, a: Adapter, c: Coverage, n: nat) {
    && c.Valid() && c.selected == 0 && c.source == Source(a) && c.admitted == n
    && (c.status == SourceUnavailable <==> !Reached(asm, a, asked, now))
  }

  /** State of the adapter loop after the sources in `done`. */
  ghost predicate Gathered(
    asm: Assembler, asked: Asked, now: Instant, done: seq<Adapter>, evidence: seq<Evidence>, coverage: seq<Coverage>)
    requires asm.perSourceLimit >= 1
  {
    && |coverage| == |done| && Pooled(asm, asked, now, done, evidence)
    && (forall i :: 0 <= i < |done| ==>
          Booked(asm, asked, now, done[i], coverage[i], Count(InFamily(Source(done[i])), evidence)))
  }

  /** Evidence comes tagged with its source, in the request's domain and classification. */
  lemma {:induction false} OfferedOrigins(
    asm: Assembler, asked: Asked, now: Instant, done: seq<Adapter>, evidence: seq<Evidence>, coverage: seq<Coverage>)
    requires asm.perSourceLimit >= 1 && Gathered(asm, asked, now, done, evidence, coverage)
    ensures forall x :: x in evidence ==>
      InScope(asked, x) && exists i :: 0 <= i < |done| && Source(done[i]) == FamilyOf(x)
  {
    forall x | x in evidence
      ensures InScope(asked, x) && exists i :: 0 <= i < |done| && Source(done[i]) == FamilyOf(x)
    {
      var i :| 0 <= i < |done| && Offers(asm, done[i], asked, now, x);
      CandidatesInScope(done[i], asked, Taken(done[i].retrieval.evidence, asm.perSourceLimit));
      assert Source(done[i]) == FamilyOf(x);
    }
  }

  lemma {:induction false} CountsAfter(
    done: seq<Adapter>, evidence: seq<Evidence>, a: Adapter, kept: seq<Evidence>)
    requires UniqueAdapters(done + [a])
    requires forall x :: x in evidence ==> exists i :: 0 <= i < |done| && Source(done[i]) == FamilyOf(x)
    requires forall x :: x in kept ==> FamilyOf(x) == Source(a)
    ensures Count(InFamily(Source(a)), evidence + kept) == |kept|
    ensures forall i :: 0 <= i < |done| ==>
      Count(InFamily(Source(done[i])), evidence + kept) == Count(InFamily(Source(done[i])), evidence)
  {
    var all := done + [a];
    assert forall i :: 0 <= i < |done| ==> Source(all[i]) != Source(all[|done|]);
    forall x | x in evidence ensures FamilyOf(x) != Source(a) {
      var i :| 0 <= i < |done| && Source(done[i]) == FamilyOf(x);
      assert Source(all[i]) != Source(all[|done|]);
    }
    FilterAppend(InFamily(Source(a)), evidence, kept);
    FilterNone(InFamily(Source(a)), evidence);
    FilterAll(InFamily(Source(a)), kept);
    forall i | 0 <= i < |done|
      ensures Count(InFamily(Source(done[i])), evidence + kept) == Count(InFamily(Source(done[i])), evidence)
    {
      FilterAppend(InFamily(Source(done[i])), evidence, kept);
      assert Source(all[i]) != Source(a);
      FilterNone(InFamily(Source(done[i])), kept);
    }
  }

  /** Membership after one more source, for any per-source property `offers`. */
  lemma {:induction false} OneMoreSource<T(!new)>(
    offers: (T, Evidence) -> bool, done: seq<T>, a: T, evidence: seq<Evidence>, kept: seq<Evidence>)
    requires forall x :: x in evidence <==> exists i :: 0 <= i < |done| && offers(done[i], x)
    requires forall x :: x in kept <==> offers(a, x)
    ensures forall x :: x in evidence + kept <==> exists i :: 0 <= i < |done + [a]| && offers((done + [a])[i], x)
  {
    var all := done + [a];
    assert all[|done|] == a;
    forall x ensures x in evidence + kept <==> exists i :: 0 <= i < |all| && offers(all[i], x) {
      if x in evidence {
        var i :| 0 <= i < |done| && offers(done[i], x);
        assert offers(all[i], x);
      }
      if x in kept {
        assert offers(all[|done|], x);
      }
      if i :| 0 <= i < |all| && offers(all[i], x) {
        assert i < |done| ==> offers(done[i], x);
      }
    }
  }

  lemma {:induction false} GatherNext(
    asm: Assembler, asked: Asked, now: Instant, done: seq<Adapter>, evidence: seq<Evidence>,
    coverage: seq<Coverage>, a: Adapter, kept: seq<Evidence>, c: Coverage)
    requires asm.perSourceLimit >= 1 && Gathered(asm, asked, now, done, evidence, coverage)
    requires UniqueAdapters(done + [a])
    requires forall x :: x in kept <==> Offers(asm, a, asked, now, x)
    requires forall x :: x in kept ==> FamilyOf(x) == Source(a) && InScope(asked, x)
    requires DistinctIds(kept) && c.Valid() && c.source == Source(a) && c.admitted == |kept| && c.selected == 0
    requires c.status == SourceUnavailable <==> !Reached(asm, a, asked, now)
    ensures Gathered(asm, asked, now, done + [a], evidence + kept, coverage + [c])
  {
    OfferedOrigins(asm, asked, now, done, evidence, coverage);
    PoolNext(asm, asked, now, done, evidence, a, kept);
    CountsAfter(done, evidence, a, kept);
    forall i | 0 <= i < |done + [a]|
      ensures Booked(asm, asked, now, (done + [a])[i], (coverage + [c])[i],
                     Count(InFamily(Source((done + [a])[i])), evidence + kept))
    {
      if i < |done| { assert Booked(asm, asked, now, done[i], coverage[i], Count(InFamily(Source(done[i])), evidence)); }
    }
  }

  lemma {:induction false} PoolNext(
    asm: Assembler, asked: Asked, now: Instant, done: seq<Adapter>, evidence: seq<Evidence>, a: Adapter,
    kept: seq<Evidence>)
    requires asm.perSourceLimit >= 1 && Pooled(asm, asked, now, done, evidence) && UniqueAdapters(done + [a])
    requires forall x :: x in evidence ==> exists i :: 0 <= i < |done| && Source(done[i]) == FamilyOf(x)
    requires forall x :: x in kept <==> Offers(asm, a, asked, now, x)
    requires DistinctIds(kept) && forall x :: x in kept ==> FamilyOf(x) == Source(a)
    ensures Pooled(asm, asked, now, done + [a], evidence + kept)
  {
    OneMoreSource((b: Adapter, x: Evidence) => Offers(asm, b, asked, now, x), done, a, evidence, kept);
    forall x | x in evidence ensures x !in kept {
      var i :| 0 <= i < |done| && Source(done[i]) == FamilyOf(x);
      assert Source((done + [a])[i]) != Source((done + [a])[|done|]);
    }
    DistinctConcat(evidence, kept);
  }

  lemma {:induction false} DistinctConcat(a: seq<Evidence>, b: seq<Evidence>)
    requires Distinct(a) && DistinctIds(b) && forall x :: x in a ==> x !in b
    ensures Distinct(a + b)
  {
    forall i, j | 0 <= i < j < |a + b| ensures (a + b)[i] != (a + b)[j] {
      if i < |a| <= j { assert (a + b)[i] in a && (a + b)[j] in b; }
      if |a| <= i { assert b[i - |a|].contextId != b[j - |a|].contextId; }
    }
  }

  method GatherAll(asm: Assembler, order: seq<Adapter>, asked: Asked, now: Instant)
    returns (evidence: seq<Evidence>, coverage: seq<Coverage>)
    requires asm.perSourceLimit >= 1 && UniqueAdapters(order)
    requires forall a :: a in order ==> a.retrieval.Valid()
    ensures Gathered(asm, asked, now, order, evidence, coverage)
  {
    evidence, coverage := [], [];
    for k := 0 to |order|
      invariant Gathered(asm, asked, now, order[..k], evidence, coverage)
    {
      var kept, c := Gather(asm, order[k], asked, now);
      assert order[..k + 1] == order[..k] + [order[k]];
      GatherNext(asm, asked, now, order[..k], evidence, coverage, order[k], kept, c);
      evidence, coverage := evidence + kept, coverage + [c];
    }
    assert order[..|order|] == order;
  }

  /** Evidence exactly one source offers under its identifier, with no source offering other content for it. */
  ghost predicate Survives(asm: Assembler, order: seq<Adapter>, asked: Asked, now: Instant, x: Evidence)
    requires asm.perSourceLimit >= 0
  {
    && (exists i :: 0 <= i < |order| && Offers(asm, order[i], asked, now, x))
    && (forall i, y :: 0 <= i < |order| && Offers(asm, order[i], asked, now, y) && y.contextId == x.contextId
          ==> y == x)
  }

  /** Everything assembly promises about its result and the surviving pool. */
  ghost predicate Accounted(
    asm: Assembler, order: seq<Adapter>, asked: Asked, now: Instant, pool: seq<Evidence>, r: Assembled)
    requires asm.perSourceLimit >= 0 && asm.totalLimit >= 0
  {
    // the pool: unambiguous citations only, each in the request's domain and classification
    && DistinctIds(pool)
    && (forall x :: x in pool <==> Survives(asm, order, asked, now, x))
    && (forall x :: x in pool ==> InScope(asked, x))
    // the selection: balanced under the global limit
    && Balanced(pool, asm.totalLimit, r.evidence) && BestFirst(pool, r.evidence)
    // the books: one valid coverage per source, counting its survivors and its selected items
    && |r.coverage| == |order|
    && (forall i :: 0 <= i < |order| ==>
          && r.coverage[i].Valid() && r.coverage[i].source == Source(order[i])
          && r.coverage[i].admitted == Count(InFamily(Source(order[i])), pool)
          && r.coverage[i].selected == Count(InFamily(Source(order[i])), r.evidence)
          && (r.coverage[i].status == SourceUnavailable <==> !Reached(asm, order[i], asked, now)))
    && SumSelected(r.coverage) == |r.evidence|
  }

  lemma {:induction false} PoolFacts(
    asm: Assembler, asked: Asked, now: Instant, order: seq<Adapter>, evidence: seq<Evidence>,
    coverage: seq<Coverage>, ids: set<Id>)
    requires asm.perSourceLimit >= 1 && Gathered(asm, asked, now, order, evidence, coverage)
    requires forall id :: id in ids <==> Count(HasId(id), evidence) > 1
    ensures var pool := Filter(Outside(ids), evidence);
      && DistinctIds(pool)
      && (forall x :: x in pool <==> Survives(asm, order, asked, now, x))
      && (forall x :: x in pool ==> InScope(asked, x))
      && (forall x :: x in pool ==> exists i :: 0 <= i < |order| && Source(order[i]) == FamilyOf(x))
  {
    OfferedOrigins(asm, asked, now, order, evidence, coverage);
    SurvivorsAreUnambiguous(evidence, ids);
    FilterMembers(Outside(ids), evidence);
    forall x ensures Unambiguous(x, evidence) <==> Survives(asm, order, asked, now, x) {
    }
  }

  /** A source with nothing to remove keeps its status; unreached sources have nothing to remove. */
  lemma {:induction false} ChargedStatus(before: Coverage, c: Coverage, evidence: seq<Evidence>, ids: set<Id>)
    requires before.Valid() && Charged(before, c, evidence, ids)
    requires before.status == SourceUnavailable ==> before.admitted == 0
    ensures before.status == SourceUnavailable <==> c.status == SourceUnavailable
  {
  }

  /** ContextAssembler.assemble: refuses an invalid configuration, otherwise every promise above holds. */
  method Assemble(asm: Assembler, adapters: seq<Adapter>, asked: Asked, now: Instant)
    returns (result: Option<Assembled>, ghost pool: seq<Evidence>)
    requires forall a :: a in adapters ==> a.retrieval.Valid()
    ensures result.Some? <==> BoundedLimits(asm) && UniqueAdapters(adapters)
    ensures result.Some? ==> Accounted(asm, Sort(AdapterBefore, adapters), asked, now, pool, result.value)
  {
    pool := [];
    var ok := Validate(asm, adapters);
    if !ok {
      return None, [];
    }
    var order := Sort(AdapterBefore, adapters);
    OrderOfAdapters(adapters);
    var evidence, gathered := GatherAll(asm, order, asked, now);
    var ids := Collisions(evidence);
    var charged := ChargeCollisions(evidence, ids, gathered);
    var survivors := Filter(Outside(ids), evidence);
    PoolFacts(asm, asked, now, order, evidence, gathered, ids);
    var out := SelectBalanced(survivors, asm.totalLimit);
    SelectionWithinPool(survivors, asm.totalLimit, out);
    var recorded := RecordSelection(out, survivors, charged);
    UnreachedOfferNothing(asm, asked, now, order, evidence, gathered);
    AllSelectedAccounted(order, recorded, survivors, out);
    result, pool := Some(Assembled(out, recorded)), survivors;
    forall i | 0 <= i < |order|
      ensures recorded[i].status == SourceUnavailable <==> !Reached(asm, order[i], asked, now)
    {
      ChargedStatus(gathered[i], charged[i], evidence, ids);
    }
  }

  lemma {:induction false} OrderOfAdapters(adapters: seq<Adapter>)
    requires UniqueAdapters(adapters)
    ensures UniqueAdapters(Sort(AdapterBefore, adapters)) && SameMembers(Sort(AdapterBefore, adapters), adapters)
    ensures |Sort(AdapterBefore, adapters)| == |adapters|
  {
    assert TotalPreorder(AdapterBefore);
    SortCorrect(AdapterBefore, adapters);
    var order := Sort(AdapterBefore, adapters);
    forall i, j | 0 <= i < j < |order| ensures Source(order[i]) != Source(order[j]) {
      assert order[i] in adapters && order[j] in adapters && order[i] != order[j];
    }
  }

  lemma {:induction false} SelectionWithinPool(pool: seq<Evidence>, limit: nat, out: seq<Evidence>)
    requires Distinct(pool) && Balanced(pool, limit, out)
    ensures forall f :: Count(InFamily(f), out) <= Count(InFamily(f), pool)
  {
    forall f ensures Count(InFamily(f), out) <= Count(InFamily(f), pool) {
      FilterDistinct(InFamily(f), out);
      FilterMembers(InFamily(f), out);
      FilterMembers(InFamily(f), pool);
      DistinctLength(Filter(InFamily(f), out), Filter(InFamily(f), pool));
    }
  }

  lemma {:induction false} UnreachedOfferNothing(
    asm: Assembler, asked: Asked, now: Instant, order: seq<Adapter>, evidence: seq<Evidence>, coverage: seq<Coverage>)
    requires asm.perSourceLimit >= 1 && UniqueAdapters(order)
    requires Gathered(asm, asked, now, order, evidence, coverage)
    ensures forall i :: 0 <= i < |order| && coverage[i].status == SourceUnavailable ==> coverage[i].admitted == 0
  {
    forall i | 0 <= i < |order| && coverage[i].status == SourceUnavailable ensures coverage[i].admitted == 0 {
      forall x | x in evidence ensures !InFamily(Source(order[i]))(x) {
        var j :| 0 <= j < |order| && Offers(asm, order[j], asked, now, x);
        CandidatesInScope(order[j], asked, Taken(order[j].retrieval.evidence, asm.perSourceLimit));
        assert j != i;
      }
      FilterNone(InFamily(Source(order[i])), evidence);
    }
  }

  lemma {:induction false} AllSelectedAccounted(order: seq<Adapter>, coverage: seq<Coverage>, pool: seq<Evidence>, out: seq<Evidence>)
    requires UniqueAdapters(order) && |coverage| == |order|
    requires forall i :: 0 <= i < |order| ==>
      coverage[i].source == Source(order[i]) && coverage[i].selected == Count(InFamily(coverage[i].source), out)
    requires forall x :: x in out ==> x in pool
    requires forall x :: x in pool ==> exists i :: 0 <= i < |order| && Source(order[i]) == FamilyOf(x)
    ensures SumSelected(coverage) == |out|
  {
    SelectedAddsUp(coverage, out);
    forall x | x in out ensures FromSources(coverage)(x) {
      var i :| 0 <= i < |order| && Source(order[i]) == FamilyOf(x);
      assert coverage[i].source == FamilyOf(x);
    }
    FilterAll(FromSources(coverage), out);
  }
}
