/**
 * The incremental knowledge graph: extraction (knowledge_graph/extractor.py), persistence
 * (knowledge_graph/persistence.py) and the resumable pipeline (knowledge_graph/pipeline.py).
 * Pattern matching is abstracted: a record carries the raw mentions found in it.
 */
module KnowledgeGraph {
  import opened Sequences

  type Id = nat

  datatype EntityType =
    Client | Equipment | Identifier | Incident | Person | Project | Site | Skill | Technology

  /** Position in the text order of the type names. */
  function TypeRank(t: EntityType): nat {
    match t
    case Client => 0 case Equipment => 1 case Identifier => 2 case Incident => 3 case Person => 4
    case Project => 5 case Site => 6 case Skill => 7 case Technology => 8
  }

  datatype Predicate = Affects | AssociatedWith | CommissionedAt | Uses | WorksOn

  function PredicateRank(p: Predicate): nat {
    match p
    case Affects => 0 case AssociatedWith => 1 case CommissionedAt => 2 case Uses => 3 case WorksOn => 4
  }

  datatype Mention = Mention(kind: EntityType, canonical: Id, normalized: Id, field: Id, matched: Id)

  datatype MentionKey = MentionKey(kind: EntityType, normalized: Id, field: Id)

  function KeyOf(m: Mention): MentionKey { MentionKey(m.kind, m.normalized, m.field) }

  datatype Fact = Fact(
    subjectType: EntityType, subjectName: Id, predicate_: Predicate, objectType: EntityType, objectName: Id)

  datatype Record = Record(sourceKey: Id, raw: seq<Mention>, commissioning: bool)

  datatype Extraction = Extraction(sourceKey: Id, mentions: seq<Mention>, facts: seq<Fact>)

  // ----- Extraction -----

  /** Keep the first mention per (type, name, field). */
  function Deduplicated(mentions: seq<Mention>): seq<Mention> {
    if mentions == [] then []
    else
      var init := Deduplicated(mentions[..|mentions| - 1]);
      var last := mentions[|mentions| - 1];
      if exists m :: m in init && KeyOf(m) == KeyOf(last) then init else init + [last]
  }

  /** The `setdefault` loop. */
  method Deduplicate(mentions: seq<Mention>) returns (unique: seq<Mention>)
    ensures unique == Deduplicated(mentions)
  {
    unique := [];
    var keys: set<MentionKey> := {};
    for k := 0 to |mentions|
      invariant unique == Deduplicated(mentions[..k])
      invariant forall key :: key in keys <==> exists m :: m in unique && KeyOf(m) == key
    {
      assert mentions[..k + 1][..k] == mentions[..k];
      if KeyOf(mentions[k]) !in keys {
        keys := keys + {KeyOf(mentions[k])};
        unique := unique + [mentions[k]];
      }
    }
    assert mentions[..|mentions|] == mentions;
  }

  ghost predicate DistinctKeys(u: seq<Mention>) {
    forall i, j :: 0 <= i < j < |u| ==> KeyOf(u[i]) != KeyOf(u[j])
  }

  /** One mention per key, all taken from the raw list. */
  lemma {:induction false} DeduplicatedDistinct(mentions: seq<Mention>)
    ensures DistinctKeys(Deduplicated(mentions))
    ensures forall m :: m in Deduplicated(mentions) ==> m in mentions
  {
    if mentions != [] {
      var init, last := mentions[..|mentions| - 1], mentions[|mentions| - 1];
      DeduplicatedDistinct(init);
      assert mentions == init + [last];
      var before, after := Deduplicated(init), Deduplicated(mentions);
      if exists m :: m in before && KeyOf(m) == KeyOf(last) {
        assert after == before;
      } else {
        assert after == before + [last];
        forall i | 0 <= i < |before| ensures KeyOf(before[i]) != KeyOf(last) {
          assert before[i] in before;
        }
        assert DistinctKeys(after);
      }
      assert forall m :: m in after ==> m in before || m == last;
    }
  }

  /** Every raw key is represented, by its first occurrence. */
  lemma {:induction false} DeduplicatedRepresents(mentions: seq<Mention>, i: nat)
    requires i < |mentions|
    ensures exists m :: m in Deduplicated(mentions) && KeyOf(m) == KeyOf(mentions[i])
    ensures (forall j :: 0 <= j < i ==> KeyOf(mentions[j]) != KeyOf(mentions[i]))
            ==> mentions[i] in Deduplicated(mentions)
  {
    var init := mentions[..|mentions| - 1];
    if i < |init| {
      DeduplicatedRepresents(init, i);
    } else {
      DeduplicatedDistinct(init);
      if mentions[i] in Deduplicated(mentions) {
        assert KeyOf(mentions[i]) == KeyOf(mentions[i]);
      }
    }
  }

  datatype Rule = Rule(left: EntityType, predicate_: Predicate, right: EntityType)

  /** The `relate` calls. */
  function Rules(commissioning: bool): seq<Rule> {
    [Rule(Person, WorksOn, Project), Rule(Project, Uses, Technology), Rule(Project, Uses, Equipment),
     Rule(Client, AssociatedWith, Project), Rule(Incident, Affects, Site)]
    + if commissioning then [Rule(Technology, CommissionedAt, Site), Rule(Equipment, CommissionedAt, Site)] else []
  }

  /** `f` relates two mentioned entities by one of the rules. */
  ghost predicate Supported(mentions: seq<Mention>, rules: seq<Rule>, f: Fact) {
    exists rule, l, r :: rule in rules && l in mentions && r in mentions
      && l.kind == rule.left && r.kind == rule.right
      && f == Fact(rule.left, l.normalized, rule.predicate_, rule.right, r.normalized)
  }

  predicate FactBefore(a: Fact, b: Fact) {
    var (a1, b1) := (TypeRank(a.subjectType), TypeRank(b.subjectType));
    var (a3, b3) := (PredicateRank(a.predicate_), PredicateRank(b.predicate_));
    var (a4, b4) := (TypeRank(a.objectType), TypeRank(b.objectType));
    a1 < b1 || (a1 == b1 && (
    a.subjectName < b.subjectName || (a.subjectName == b.subjectName && (
    a3 < b3 || (a3 == b3 && (
    a4 < b4 || (a4 == b4 && a.objectName <= b.objectName)))))))
  }

  lemma {:induction false} FactOrder()
    ensures TotalPreorder(FactBefore)
    ensures forall a, b :: FactBefore(a, b) && FactBefore(b, a) ==> a == b
  {
  }

  /** What extraction promises of a record: deduplicated mentions and exactly the supported facts, sorted. */
  ghost predicate IsExtraction(record: Record, e: Extraction) {
    && e.sourceKey == record.sourceKey && e.mentions == Deduplicated(record.raw)
    && Sorted(FactBefore, e.facts) && Distinct(e.facts)
    && forall f :: f in e.facts <==> Supported(e.mentions, Rules(record.commissioning), f)
  }

  lemma {:induction false} ExtractionUnique(record: Record, a: Extraction, b: Extraction)
    requires IsExtraction(record, a) && IsExtraction(record, b)
    ensures a == b
  {
    FactOrder();
    SortedUnique(FactBefore, a.facts, b.facts);
  }

  ghost predicate Mentions(raw: seq<Mention>, kind: EntityType, name: Id) {
    exists m :: m in raw && m.kind == kind && m.normalized == name
  }

  /** The facts of a record relate what its text mentions, repeated mentions or not, in one of seven ways. */
  lemma {:induction false} FactsAre(record: Record, e: Extraction, f: Fact)
    requires IsExtraction(record, e)
    ensures f in e.facts <==>
      && Mentions(record.raw, f.subjectType, f.subjectName) && Mentions(record.raw, f.objectType, f.objectName)
      && match f.predicate_
         case WorksOn => f.subjectType == Person && f.objectType == Project
         case Uses => f.subjectType == Project && f.objectType in {Technology, Equipment}
         case AssociatedWith => f.subjectType == Client && f.objectType == Project
         case Affects => f.subjectType == Incident && f.objectType == Site
         case CommissionedAt => record.commissioning && f.subjectType in {Technology, Equipment} && f.objectType == Site
  {
    MentionsKept(record.raw, f.subjectType, f.subjectName);
    MentionsKept(record.raw, f.objectType, f.objectName);
    SupportedIff(e.mentions, Rules(record.commissioning), f);
    RelatedIff(record.commissioning, Rule(f.subjectType, f.predicate_, f.objectType));
  }

  lemma {:induction false} SupportedIff(mentions: seq<Mention>, rules: seq<Rule>, f: Fact)
    ensures Supported(mentions, rules, f) <==>
      && Rule(f.subjectType, f.predicate_, f.objectType) in rules
      && Mentions(mentions, f.subjectType, f.subjectName) && Mentions(mentions, f.objectType, f.objectName)
  {
    if Mentions(mentions, f.subjectType, f.subjectName) && Mentions(mentions, f.objectType, f.objectName) {
      var l :| l in mentions && l.kind == f.subjectType && l.normalized == f.subjectName;
      var r :| r in mentions && r.kind == f.objectType && r.normalized == f.objectName;
      assert f == Fact(f.subjectType, l.normalized, f.predicate_, f.objectType, r.normalized);
    }
  }

  lemma {:induction false} RelatedIff(commissioning: bool, rule: Rule)
    ensures rule in Rules(commissioning) <==> match rule.predicate_
      case WorksOn => rule.left == Person && rule.right == Project
      case Uses => rule.left == Project && rule.right in {Technology, Equipment}
      case AssociatedWith => rule.left == Client && rule.right == Project
      case Affects => rule.left == Incident && rule.right == Site
      case CommissionedAt => commissioning && rule.left in {Technology, Equipment} && rule.right == Site
  {
    var always := [Rule(Person, WorksOn, Project), Rule(Project, Uses, Technology), Rule(Project, Uses, Equipment),
                   Rule(Client, AssociatedWith, Project), Rule(Incident, Affects, Site)];
    var sometimes := [Rule(Technology, CommissionedAt, Site), Rule(Equipment, CommissionedAt, Site)];
    assert Rules(commissioning) == always + if commissioning then sometimes else [];
    assert rule in Rules(commissioning) <==> rule in always || (commissioning && rule in sometimes);
  }

  /** Deduplication keeps every name mentioned. */
  lemma {:induction false} MentionsKept(raw: seq<Mention>, kind: EntityType, name: Id)
    ensures Mentions(Deduplicated(raw), kind, name) <==> Mentions(raw, kind, name)
  {
    DeduplicatedDistinct(raw);
    if m :| m in raw && m.kind == kind && m.normalized == name {
      var i :| 0 <= i < |raw| && raw[i] == m;
      DeduplicatedRepresents(raw, i);
    }
  }

  /** One `relate` call: all pairs of the two types. */
  method Relate(mentions: seq<Mention>, rule: Rule) returns (facts: set<Fact>)
    ensures forall f :: f in facts <==> Supported(mentions, [rule], f)
  {
    facts := {};
    var lefts := set m | m in mentions && m.kind == rule.left :: m.normalized;
    var rights := set m | m in mentions && m.kind == rule.right :: m.normalized;
    facts := set l, r | l in lefts && r in rights :: Fact(rule.left, l, rule.predicate_, rule.right, r);
    forall f ensures f in facts <==> Supported(mentions, [rule], f) {
      if Supported(mentions, [rule], f) {
        var q, l, r :| q in [rule] && l in mentions && r in mentions && l.kind == q.left && r.kind == q.right
          && f == Fact(q.left, l.normalized, q.predicate_, q.right, r.normalized);
        assert l.normalized in lefts && r.normalized in rights;
      }
      if f in facts {
        var l :| l in mentions && l.kind == rule.left && l.normalized == f.subjectName;
        var r :| r in mentions && r.kind == rule.right && r.normalized == f.objectName;
        assert rule in [rule];
      }
    }
  }

  lemma {:induction false} SupportedSnoc(mentions: seq<Mention>, rules: seq<Rule>, rule: Rule, f: Fact)
    ensures Supported(mentions, rules + [rule], f) <==> Supported(mentions, rules, f) || Supported(mentions, [rule], f)
  {
    assert forall q :: q in rules + [rule] <==> q in rules || q in [rule];
  }

  /** KnowledgeExtractor.extract on the mentions found. */
  method Extract(record: Record) returns (e: Extraction)
    ensures IsExtraction(record, e)
  {
    var mentions := Deduplicate(record.raw);
    var rules := Rules(record.commissioning);
    var facts: set<Fact> := {};
    for k := 0 to |rules|
      invariant forall f :: f in facts <==> Supported(mentions, rules[..k], f)
    {
      var more := Relate(mentions, rules[k]);
      assert rules[..k + 1] == rules[..k] + [rules[k]];
      forall f { SupportedSnoc(mentions, rules[..k], rules[k], f); }
      facts := facts + more;
    }
    assert rules[..|rules|] == rules;
    FactOrder();
    var sorted := SortKeys(FactBefore, facts);
    e := Extraction(record.sourceKey, mentions, sorted);
  }

  lemma {:induction false} ExtractionExists(record: Record)
    ensures exists e :: IsExtraction(record, e)
  {
    var mentions, rules := Deduplicated(record.raw), Rules(record.commissioning);
    var facts := set rule, l, r | rule in rules && l in mentions && r in mentions
                                  && l.kind == rule.left && r.kind == rule.right
                 :: Fact(rule.left, l.normalized, rule.predicate_, rule.right, r.normalized);
    FactOrder();
    var order := SortedListing(FactBefore, facts);
    assert IsExtraction(record, Extraction(record.sourceKey, mentions, order));
  }

  // ----- The graph tables -----

  datatype EntityKey = EntityKey(kind: EntityType, name: Id)

  datatype Entity = Entity(id: Id, canonical: Id)

  datatype Occurrence = Occurrence(entity: Id, sourceKey: Id, field: Id)

  datatype Triple = Triple(subject: Id, predicate_: Predicate, object_: Id)

  datatype Graph = Graph(
    entities: map<EntityKey, Entity>, occurrences: map<Occurrence, Id>, relationships: map<Triple, Id>,
    sources: set<(Id, Id)>)

  const EMPTY: Graph := Graph(map[], map[], map[], {})

  function MentionedEntity(m: Mention): EntityKey { EntityKey(m.kind, m.normalized) }

  function Subject(f: Fact): EntityKey { EntityKey(f.subjectType, f.subjectName) }

  function Object(f: Fact): EntityKey { EntityKey(f.objectType, f.objectName) }

  /** INSERT OR IGNORE; rows are never deleted, so the next row id is the row count plus one. */
  function AddIfMissing<K, V>(m: map<K, V>, k: K, v: V): map<K, V> {
    if k in m then m else m[k := v]
  }

  /** _upsert_mention. */
  function Upsert(g: Graph, m: Mention, source: Id): Graph {
    var entities := AddIfMissing(g.entities, MentionedEntity(m), Entity(|g.entities| + 1, m.canonical));
    var occurrence := Occurrence(entities[MentionedEntity(m)].id, source, m.field);
    g.(entities := entities, occurrences := AddIfMissing(g.occurrences, occurrence, m.matched))
  }

  predicate Linkable(g: Graph, f: Fact) { Subject(f) in g.entities && Object(f) in g.entities }

  function TripleOf(g: Graph, f: Fact): Triple
    requires Linkable(g, f)
  {
    Triple(g.entities[Subject(f)].id, f.predicate_, g.entities[Object(f)].id)
  }

  /** Relationship insert plus its source row. */
  function Link(g: Graph, f: Fact, source: Id): Graph
    requires Linkable(g, f)
  {
    var relationships := AddIfMissing(g.relationships, TripleOf(g, f), |g.relationships| + 1);
    g.(relationships := relationships, sources := g.sources + {(relationships[TripleOf(g, f)], source)})
  }

  function UpsertAll(g: Graph, ms: seq<Mention>, source: Id): (g': Graph)
    ensures forall k :: k in g.entities ==> k in g'.entities && g'.entities[k] == g.entities[k]
    ensures forall m :: m in ms ==> MentionedEntity(m) in g'.entities
  {
    if ms == [] then g else Upsert(UpsertAll(g, ms[..|ms| - 1], source), ms[|ms| - 1], source)
  }

  function LinkAll(g: Graph, fs: seq<Fact>, source: Id): (g': Graph)
    requires forall f :: f in fs ==> Linkable(g, f)
    ensures g'.entities == g.entities
  {
    if fs == [] then g
    else
      var before := LinkAll(g, fs[..|fs| - 1], source);
      assert fs[|fs| - 1] in fs && Linkable(g, fs[|fs| - 1]);
      Link(before, fs[|fs| - 1], source)
  }

  /** Every fact relates entities mentioned in the same extraction. */
  ghost predicate Closed(e: Extraction) {
    forall f :: f in e.facts ==>
      && (exists m :: m in e.mentions && MentionedEntity(m) == Subject(f))
      && (exists m :: m in e.mentions && MentionedEntity(m) == Object(f))
  }

  /** Looking up a fact's endpoints can never miss: extraction only relates what it mentions. */
  lemma {:induction false} ExtractionsAreClosed(record: Record, e: Extraction)
    requires IsExtraction(record, e)
    ensures Closed(e)
  {
    forall f | f in e.facts
      ensures exists m :: m in e.mentions && MentionedEntity(m) == Subject(f)
      ensures exists m :: m in e.mentions && MentionedEntity(m) == Object(f)
    {
      var rule, l, r :| rule in Rules(record.commissioning) && l in e.mentions && r in e.mentions
        && l.kind == rule.left && r.kind == rule.right
        && f == Fact(rule.left, l.normalized, rule.predicate_, rule.right, r.normalized);
      assert MentionedEntity(l) == Subject(f) && MentionedEntity(r) == Object(f);
    }
  }

  /** _apply_result. */
  ghost function Apply(g: Graph, e: Extraction): Graph
    requires Closed(e)
  {
    LinkAll(UpsertAll(g, e.mentions, e.sourceKey), e.facts, e.sourceKey)
  }

  ghost predicate AllClosed(es: seq<Extraction>) { forall e :: e in es ==> Closed(e) }

  ghost function ApplyAll(g: Graph, es: seq<Extraction>): Graph
    requires AllClosed(es)
  {
    if es == [] then g else Apply(ApplyAll(g, es[..|es| - 1]), es[|es| - 1])
  }

  // ----- Re-applying committed work changes nothing -----

  /** Every row of `g` is kept, unchanged, in `h`. */
  ghost predicate Extends(g: Graph, h: Graph) {
    && (forall k :: k in g.entities ==> k in h.entities && h.entities[k] == g.entities[k])
    && (forall k :: k in g.occurrences ==> k in h.occurrences && h.occurrences[k] == g.occurrences[k])
    && (forall k :: k in g.relationships ==> k in h.relationships && h.relationships[k] == g.relationships[k])
    && g.sources <= h.sources
  }

  ghost predicate HasMention(g: Graph, m: Mention, source: Id) {
    && MentionedEntity(m) in g.entities
    && Occurrence(g.entities[MentionedEntity(m)].id, source, m.field) in g.occurrences
  }

  ghost predicate HasFact(g: Graph, f: Fact, source: Id) {
    && Linkable(g, f) && TripleOf(g, f) in g.relationships
    && (g.relationships[TripleOf(g, f)], source) in g.sources
  }

  ghost predicate Has(g: Graph, e: Extraction) {
    && (forall m :: m in e.mentions ==> HasMention(g, m, e.sourceKey))
    && (forall f :: f in e.facts ==> HasFact(g, f, e.sourceKey))
  }

  lemma {:induction false} UpsertAllHas(g: Graph, ms: seq<Mention>, source: Id)
    ensures Extends(g, UpsertAll(g, ms, source))
    ensures forall m :: m in ms ==> HasMention(UpsertAll(g, ms, source), m, source)
  {
    if ms != [] {
      UpsertAllHas(g, ms[..|ms| - 1], source);
      assert ms == ms[..|ms| - 1] + [ms[|ms| - 1]];
    }
  }

  lemma {:induction false} LinkAllHas(g: Graph, fs: seq<Fact>, source: Id)
    requires forall f :: f in fs ==> Linkable(g, f)
    ensures Extends(g, LinkAll(g, fs, source))
    ensures forall f :: f in fs ==> HasFact(LinkAll(g, fs, source), f, source)
  {
    if fs != [] {
      var init, last := fs[..|fs| - 1], fs[|fs| - 1];
      LinkAllHas(g, init, source);
      assert fs == init + [last] && last in fs;
      var h := LinkAll(g, init, source);
      assert forall f :: f in init ==> TripleOf(Link(h, last, source), f) == TripleOf(h, f);
    }
  }

  lemma {:induction false} ExtendsKeeps(g: Graph, h: Graph, e: Extraction)
    requires Extends(g, h) && Has(g, e)
    ensures Has(h, e)
  {
  }

  lemma {:induction false} ApplyHas(g: Graph, e: Extraction)
    requires Closed(e)
    ensures Extends(g, Apply(g, e)) && Has(Apply(g, e), e)
  {
    var mid := UpsertAll(g, e.mentions, e.sourceKey);
    UpsertAllHas(g, e.mentions, e.sourceKey);
    LinkAllHas(mid, e.facts, e.sourceKey);
  }

  lemma {:induction false} ApplyAbsorbed(g: Graph, e: Extraction)
    requires Closed(e) && Has(g, e)
    ensures Apply(g, e) == g
  {
    UpsertAbsorbed(g, e.mentions, e.sourceKey);
    LinkAbsorbed(g, e.facts, e.sourceKey);
  }

  lemma {:induction false} UpsertAbsorbed(g: Graph, ms: seq<Mention>, source: Id)
    requires forall m :: m in ms ==> HasMention(g, m, source)
    ensures UpsertAll(g, ms, source) == g
  {
    if ms != [] {
      UpsertAbsorbed(g, ms[..|ms| - 1], source);
      assert HasMention(g, ms[|ms| - 1], source);
    }
  }

  lemma {:induction false} LinkAbsorbed(g: Graph, fs: seq<Fact>, source: Id)
    requires forall f :: f in fs ==> Linkable(g, f) && HasFact(g, f, source)
    ensures LinkAll(g, fs, source) == g
  {
    if fs != [] {
      LinkAbsorbed(g, fs[..|fs| - 1], source);
      assert HasFact(g, fs[|fs| - 1], source);
    }
  }

  lemma {:induction false} ApplyAllHas(g: Graph, es: seq<Extraction>)
    requires AllClosed(es)
    ensures Extends(g, ApplyAll(g, es))
    ensures forall e :: e in es ==> Has(ApplyAll(g, es), e)
  {
    if es != [] {
      var init, last := es[..|es| - 1], es[|es| - 1];
      ApplyAllHas(g, init);
      ApplyHas(ApplyAll(g, init), last);
      assert es == init + [last];
      forall e | e in init ensures Has(ApplyAll(g, es), e) {
        ExtendsKeeps(ApplyAll(g, init), ApplyAll(g, es), e);
      }
    }
  }

  lemma {:induction false} ApplyAllAbsorbed(g: Graph, es: seq<Extraction>)
    requires AllClosed(es) && forall e :: e in es ==> Has(g, e)
    ensures ApplyAll(g, es) == g
  {
    if es != [] {
      ApplyAllAbsorbed(g, es[..|es| - 1]);
      ApplyAbsorbed(g, es[|es| - 1]);
    }
  }

  /** A batch applied again, even after other work, leaves the graph exactly as it is. */
  lemma {:induction false} ReapplyChangesNothing(g: Graph, batch: seq<Extraction>, later: seq<Extraction>)
    requires AllClosed(batch) && AllClosed(later)
    ensures var h := ApplyAll(ApplyAll(g, batch), later); ApplyAll(h, batch) == h
  {
    var mid := ApplyAll(g, batch);
    ApplyAllHas(g, batch);
    ApplyAllHas(mid, later);
    forall e | e in batch ensures Has(ApplyAll(mid, later), e) {
      ExtendsKeeps(mid, ApplyAll(mid, later), e);
    }
    ApplyAllAbsorbed(ApplyAll(mid, later), batch);
  }

  /** Batching is invisible: applying two lists in turn is applying their concatenation. */
  lemma {:induction false} ApplyAllConcat(g: Graph, a: seq<Extraction>, b: seq<Extraction>)
    requires AllClosed(a) && AllClosed(b)
    ensures AllClosed(a + b) && ApplyAll(ApplyAll(g, a), b) == ApplyAll(g, a + b)
  {
    if b == [] {
      assert a + b == a;
    } else {
      ApplyAllConcat(g, a, b[..|b| - 1]);
      assert (a + b)[..|a + b| - 1] == a + b[..|b| - 1];
    }
  }

  // ----- What the rows of a graph stand for -----

  /** A mention with the record it was found in, and a fact with the record that holds it. */
  datatype Sighting = Sighting(source: Id, mention: Mention)

  datatype Claim = Claim(source: Id, fact: Fact)

  function SightingsOf(source: Id, ms: seq<Mention>): seq<Sighting> {
    if ms == [] then [] else SightingsOf(source, ms[..|ms| - 1]) + [Sighting(source, ms[|ms| - 1])]
  }

  function ClaimsOf(source: Id, fs: seq<Fact>): seq<Claim> {
    if fs == [] then [] else ClaimsOf(source, fs[..|fs| - 1]) + [Claim(source, fs[|fs| - 1])]
  }

  /** Everything the extractions mention and hold, in order. */
  function Sightings(es: seq<Extraction>): seq<Sighting> {
    if es == [] then []
    else Sightings(es[..|es| - 1]) + SightingsOf(es[|es| - 1].sourceKey, es[|es| - 1].mentions)
  }

  function Claims(es: seq<Extraction>): seq<Claim> {
    if es == [] then []
    else Claims(es[..|es| - 1]) + ClaimsOf(es[|es| - 1].sourceKey, es[|es| - 1].facts)
  }

  lemma {:induction false} SightingsOfAre(source: Id, ms: seq<Mention>)
    ensures forall s :: s in SightingsOf(source, ms) <==> s.source == source && s.mention in ms
  {
    if ms != [] {
      SightingsOfAre(source, ms[..|ms| - 1]);
      assert ms == ms[..|ms| - 1] + [ms[|ms| - 1]];
    }
  }

  lemma {:induction false} ClaimsOfAre(source: Id, fs: seq<Fact>)
    ensures forall c :: c in ClaimsOf(source, fs) <==> c.source == source && c.fact in fs
  {
    if fs != [] {
      ClaimsOfAre(source, fs[..|fs| - 1]);
      assert fs == fs[..|fs| - 1] + [fs[|fs| - 1]];
    }
  }

  /** Sightings and claims are the mentions and facts of the extractions, and nothing else. */
  lemma {:induction false} EverythingFound(es: seq<Extraction>)
    ensures forall s :: s in Sightings(es) <==> exists e :: e in es && e.sourceKey == s.source && s.mention in e.mentions
    ensures forall c :: c in Claims(es) <==> exists e :: e in es && e.sourceKey == c.source && c.fact in e.facts
  {
    if es != [] {
      var init, last := es[..|es| - 1], es[|es| - 1];
      EverythingFound(init);
      SightingsOfAre(last.sourceKey, last.mentions);
      ClaimsOfAre(last.sourceKey, last.facts);
      assert forall e :: e in es <==> e in init || e == last;
    }
  }

  type Entities = map<EntityKey, Entity>

  /** The canonical name that an entity was first mentioned by. */
  function NameOf(log: seq<Sighting>, key: EntityKey): Option<Id> {
    if log == [] then None
    else
      var earlier, last := NameOf(log[..|log| - 1], key), log[|log| - 1].mention;
      if earlier.Some? then earlier else if MentionedEntity(last) == key then Some(last.canonical) else None
  }

  /** The sighting puts its entity, by id, into that field of its record. */
  predicate SeenAs(entities: Entities, s: Sighting, o: Occurrence) {
    && MentionedEntity(s.mention) in entities && o.entity == entities[MentionedEntity(s.mention)].id
    && o.sourceKey == s.source && o.field == s.mention.field
  }

  /** The text that was matched first for an entity in a field of a record. */
  function TextAt(entities: Entities, log: seq<Sighting>, o: Occurrence): Option<Id> {
    if log == [] then None
    else
      var earlier, last := TextAt(entities, log[..|log| - 1], o), log[|log| - 1];
      if earlier.Some? then earlier else if SeenAs(entities, last, o) then Some(last.mention.matched) else None
  }

  /** The triple relates the fact's two entities, by id. */
  predicate Between(entities: Entities, f: Fact, t: Triple) {
    && Subject(f) in entities && Object(f) in entities && t.predicate_ == f.predicate_
    && t.subject == entities[Subject(f)].id && t.object_ == entities[Object(f)].id
  }

  /** Some claim, of that record if one is given, holds a fact between the two entities of the triple. */
  predicate Held(entities: Entities, claims: seq<Claim>, t: Triple, source: Option<Id>) {
    claims != [] &&
    var last := claims[|claims| - 1];
    || Held(entities, claims[..|claims| - 1], t, source)
    || (Between(entities, last.fact, t) && source in {None, Some(last.source)})
  }

  /** The two readings of the log, said with quantifiers: an entity is named by its first mention. */
  lemma {:induction false} FirstMentionNames(log: seq<Sighting>, key: EntityKey)
    ensures NameOf(log, key).Some? <==> exists s :: s in log && MentionedEntity(s.mention) == key
    ensures forall n :: 0 <= n < |log| && MentionedEntity(log[n].mention) == key
                        && (forall m :: 0 <= m < n ==> MentionedEntity(log[m].mention) != key)
              ==> NameOf(log, key) == Some(log[n].mention.canonical)
  {
    if log != [] {
      var init, last := log[..|log| - 1], log[|log| - 1];
      FirstMentionNames(init, key);
      assert forall s :: s in log <==> s in init || s == last by { assert log == init + [last]; }
      assert forall n :: 0 <= n < |init| ==> log[n] == init[n];
    }
  }

  /** And the text kept is that of the first sighting there. */
  lemma {:induction false} FirstSightingMatches(entities: Entities, log: seq<Sighting>, o: Occurrence)
    ensures TextAt(entities, log, o).Some? <==> exists s :: s in log && SeenAs(entities, s, o)
    ensures forall n :: 0 <= n < |log| && SeenAs(entities, log[n], o)
                        && (forall m :: 0 <= m < n ==> !SeenAs(entities, log[m], o))
              ==> TextAt(entities, log, o) == Some(log[n].mention.matched)
  {
    if log != [] {
      var init, last := log[..|log| - 1], log[|log| - 1];
      FirstSightingMatches(entities, init, o);
      assert forall s :: s in log <==> s in init || s == last by { assert log == init + [last]; }
      assert forall n :: 0 <= n < |init| ==> log[n] == init[n];
    }
  }

  lemma {:induction false} HeldByAClaim(entities: Entities, claims: seq<Claim>, t: Triple, source: Option<Id>)
    ensures Held(entities, claims, t, source) <==>
      exists c :: c in claims && Between(entities, c.fact, t) && (source.Some? ==> c.source == source.value)
  {
    if claims != [] {
      HeldByAClaim(entities, claims[..|claims| - 1], t, source);
      assert claims == claims[..|claims| - 1] + [claims[|claims| - 1]];
    }
  }

  /** Row ids are one, two, three and so on, each given to one row. */
  ghost predicate Numbered<K(!new)>(ids: map<K, Id>) {
    && (forall a :: a in ids ==> 1 <= ids[a] <= |ids|)
    && (forall a, b :: a in ids && b in ids && ids[a] == ids[b] ==> a == b)
  }

  function EntityIds(g: Graph): map<EntityKey, Id> { map a | a in g.entities :: g.entities[a].id }

  /** One row per mentioned entity, under an id of its own, with the name of its first mention. */
  ghost predicate EntitiesTell(g: Graph, log: seq<Sighting>) {
    && Numbered(EntityIds(g))
    && (forall a :: NameOf(log, a) == if a in g.entities then Some(g.entities[a].canonical) else None)
  }

  /** One row per entity, record and field it was seen in, with the text matched first. */
  ghost predicate OccurrencesTell(g: Graph, log: seq<Sighting>) {
    forall o :: TextAt(g.entities, log, o) == if o in g.occurrences then Some(g.occurrences[o]) else None
  }

  /** One row per related pair, under an id of its own, and all claims are about entities that are there. */
  ghost predicate RelationshipsTell(g: Graph, claims: seq<Claim>) {
    && Numbered(g.relationships)
    && (forall t :: t in g.relationships <==> Held(g.entities, claims, t, None))
    && (forall i :: 0 <= i < |claims| ==> Linkable(g, claims[i].fact))
  }

  /** One row per relationship and record that holds it. */
  ghost predicate SourcesTell(g: Graph, claims: seq<Claim>) {
    && (forall t, source: Id :: t in g.relationships ==>
          ((g.relationships[t], source) in g.sources <==> Held(g.entities, claims, t, Some(source))))
    && (forall x :: x in g.sources ==> exists t :: t in g.relationships && g.relationships[t] == x.0)
  }

  ghost predicate GraphTells(g: Graph, log: seq<Sighting>, claims: seq<Claim>) {
    EntitiesTell(g, log) && OccurrencesTell(g, log) && RelationshipsTell(g, claims) && SourcesTell(g, claims)
  }

  lemma {:induction false} NextNumber<K(!new)>(ids: map<K, Id>, k: K)
    requires Numbered(ids)
    ensures Numbered(AddIfMissing(ids, k, |ids| + 1))
  {
    if k !in ids { MapGrows(ids, k, |ids| + 1); }
  }

  lemma {:induction false} NameSnoc(log: seq<Sighting>, s: Sighting, key: EntityKey)
    ensures NameOf(log + [s], key) ==
      if NameOf(log, key).Some? then NameOf(log, key)
      else if MentionedEntity(s.mention) == key then Some(s.mention.canonical) else None
  {
    assert (log + [s])[..|log|] == log;
  }

  lemma {:induction false} TextSnoc(entities: Entities, log: seq<Sighting>, s: Sighting, o: Occurrence)
    ensures TextAt(entities, log + [s], o) ==
      if TextAt(entities, log, o).Some? then TextAt(entities, log, o)
      else if SeenAs(entities, s, o) then Some(s.mention.matched) else None
  {
    assert (log + [s])[..|log|] == log;
  }

  lemma {:induction false} HeldSnoc(entities: Entities, claims: seq<Claim>, c: Claim, t: Triple, source: Option<Id>)
    ensures Held(entities, claims + [c], t, source) <==>
      Held(entities, claims, t, source) || (Between(entities, c.fact, t) && source in {None, Some(c.source)})
  {
    assert (claims + [c])[..|claims|] == claims;
  }

  /** More entities do not change where earlier sightings and claims point. */
  ghost predicate Grows(entities: Entities, more: Entities) {
    forall k :: k in entities ==> k in more && more[k] == entities[k]
  }

  lemma {:induction false} TextStable(entities: Entities, more: Entities, log: seq<Sighting>, o: Occurrence)
    requires Grows(entities, more) && forall i :: 0 <= i < |log| ==> MentionedEntity(log[i].mention) in entities
    ensures TextAt(more, log, o) == TextAt(entities, log, o)
  {
    if log != [] { TextStable(entities, more, log[..|log| - 1], o); }
  }

  lemma {:induction false} HeldStable(entities: Entities, more: Entities, claims: seq<Claim>, t: Triple, source: Option<Id>)
    requires Grows(entities, more)
    requires forall i :: 0 <= i < |claims| ==> Subject(claims[i].fact) in entities && Object(claims[i].fact) in entities
    ensures Held(more, claims, t, source) == Held(entities, claims, t, source)
  {
    if claims != [] { HeldStable(entities, more, claims[..|claims| - 1], t, source); }
  }

  /** Every sighted entity is in the table. */
  lemma {:induction false} AllSighted(g: Graph, log: seq<Sighting>, i: nat)
    requires EntitiesTell(g, log) && i < |log|
    ensures MentionedEntity(log[i].mention) in g.entities
  {
    FirstMentionNames(log, MentionedEntity(log[i].mention));
    assert log[i] in log;
  }

  /** A new entity gets the next id. */
  lemma {:induction false} UpsertNumbers(g: Graph, m: Mention, source: Id)
    requires Numbered(EntityIds(g))
    ensures Numbered(EntityIds(Upsert(g, m, source)))
  {
    NextNumber(EntityIds(g), MentionedEntity(m));
    assert |EntityIds(g)| == |g.entities| by { assert EntityIds(g).Keys == g.entities.Keys; }
    assert EntityIds(Upsert(g, m, source)) == AddIfMissing(EntityIds(g), MentionedEntity(m), |EntityIds(g)| + 1);
  }

  lemma {:induction false} UpsertTellsEntities(g: Graph, log: seq<Sighting>, m: Mention, source: Id)
    requires EntitiesTell(g, log)
    ensures EntitiesTell(Upsert(g, m, source), log + [Sighting(source, m)])
    ensures Grows(g.entities, Upsert(g, m, source).entities)
  {
    var h := Upsert(g, m, source);
    UpsertNumbers(g, m, source);
    forall a ensures NameOf(log + [Sighting(source, m)], a) == if a in h.entities then Some(h.entities[a].canonical) else None {
      NameSnoc(log, Sighting(source, m), a);
    }
  }

  lemma {:induction false} UpsertTellsOccurrences(g: Graph, log: seq<Sighting>, m: Mention, source: Id)
    requires EntitiesTell(g, log) && OccurrencesTell(g, log)
    ensures OccurrencesTell(Upsert(g, m, source), log + [Sighting(source, m)])
  {
    var h := Upsert(g, m, source);
    UpsertTellsEntities(g, log, m, source);
    forall i | 0 <= i < |log| ensures MentionedEntity(log[i].mention) in g.entities { AllSighted(g, log, i); }
    forall o ensures TextAt(h.entities, log + [Sighting(source, m)], o)
                  == if o in h.occurrences then Some(h.occurrences[o]) else None {
      TextSnoc(h.entities, log, Sighting(source, m), o);
      TextStable(g.entities, h.entities, log, o);
    }
  }

  /** New entities change nothing for claims whose entities are there already. */
  lemma {:induction false} UpsertKeepsClaims(g: Graph, claims: seq<Claim>, m: Mention, source: Id)
    requires RelationshipsTell(g, claims) && SourcesTell(g, claims) && Grows(g.entities, Upsert(g, m, source).entities)
    ensures RelationshipsTell(Upsert(g, m, source), claims) && SourcesTell(Upsert(g, m, source), claims)
  {
    var h := Upsert(g, m, source);
    forall t, x: Option<Id> ensures Held(h.entities, claims, t, x) == Held(g.entities, claims, t, x) {
      HeldStable(g.entities, h.entities, claims, t, x);
    }
  }

  lemma {:induction false} LinkTellsRelationships(g: Graph, claims: seq<Claim>, f: Fact, source: Id)
    requires RelationshipsTell(g, claims) && Linkable(g, f)
    ensures RelationshipsTell(Link(g, f, source), claims + [Claim(source, f)])
  {
    var h := Link(g, f, source);
    NextNumber(g.relationships, TripleOf(g, f));
    assert Numbered(h.relationships) && h.entities == g.entities;
    forall i | 0 <= i < |claims| + 1 ensures Linkable(h, (claims + [Claim(source, f)])[i].fact) {
      if i < |claims| { assert Linkable(g, claims[i].fact); }
    }
    forall t ensures t in h.relationships <==> Held(h.entities, claims + [Claim(source, f)], t, None) {
      HeldSnoc(h.entities, claims, Claim(source, f), t, None);
      assert Between(h.entities, f, t) <==> t == TripleOf(g, f);
    }
  }

  lemma {:induction false} LinkTellsSources(g: Graph, claims: seq<Claim>, f: Fact, source: Id)
    requires RelationshipsTell(g, claims) && SourcesTell(g, claims) && Linkable(g, f)
    ensures SourcesTell(Link(g, f, source), claims + [Claim(source, f)])
  {
    var h := Link(g, f, source);
    forall t, x: Id | t in h.relationships
      ensures (h.relationships[t], x) in h.sources <==> Held(h.entities, claims + [Claim(source, f)], t, Some(x))
    {
      LinkTellsSource(g, claims, f, source, t, x);
    }
    forall x | x in h.sources ensures exists t :: t in h.relationships && h.relationships[t] == x.0 {
      if x in g.sources {
        var t :| t in g.relationships && g.relationships[t] == x.0;
        assert h.relationships[t] == x.0;
      } else {
        assert h.relationships[TripleOf(g, f)] == x.0;
      }
    }
  }

  lemma {:induction false} LinkTellsSource(g: Graph, claims: seq<Claim>, f: Fact, source: Id, t: Triple, x: Id)
    requires RelationshipsTell(g, claims) && SourcesTell(g, claims) && Linkable(g, f)
    requires t in Link(g, f, source).relationships
    ensures var h := Link(g, f, source);
      (h.relationships[t], x) in h.sources <==> Held(h.entities, claims + [Claim(source, f)], t, Some(x))
  {
    var h := Link(g, f, source);
    NextNumber(g.relationships, TripleOf(g, f));
    HeldSnoc(h.entities, claims, Claim(source, f), t, Some(x));
    NewRowIsUnsourced(g, claims, t, x);
    assert Between(h.entities, f, t) <==> t == TripleOf(g, f);
    assert h.relationships[t] == h.relationships[TripleOf(g, f)] <==> t == TripleOf(g, f);
  }

  /** What no claim holds, no claim of one record holds; and no row says so. */
  lemma {:induction false} NewRowIsUnsourced(g: Graph, claims: seq<Claim>, t: Triple, x: Id)
    requires RelationshipsTell(g, claims) && SourcesTell(g, claims)
    ensures t !in g.relationships ==> !Held(g.entities, claims, t, Some(x))
    ensures (|g.relationships| + 1, x) !in g.sources
  {
    HeldByAClaim(g.entities, claims, t, None);
    HeldByAClaim(g.entities, claims, t, Some(x));
  }

  lemma {:induction false} LinkKeepsSightings(g: Graph, log: seq<Sighting>, f: Fact, source: Id)
    requires EntitiesTell(g, log) && OccurrencesTell(g, log) && Linkable(g, f)
    ensures EntitiesTell(Link(g, f, source), log) && OccurrencesTell(Link(g, f, source), log)
  {
    assert EntityIds(Link(g, f, source)) == EntityIds(g);
  }

  lemma {:induction false} UpsertAllTells(g: Graph, log: seq<Sighting>, claims: seq<Claim>, ms: seq<Mention>, source: Id)
    requires GraphTells(g, log, claims)
    ensures GraphTells(UpsertAll(g, ms, source), log + SightingsOf(source, ms), claims)
  {
    if ms == [] {
      assert log + [] == log;
    } else {
      var init, last := ms[..|ms| - 1], ms[|ms| - 1];
      var mid, seen := UpsertAll(g, init, source), log + SightingsOf(source, init);
      UpsertAllTells(g, log, claims, init, source);
      UpsertTellsEntities(mid, seen, last, source);
      UpsertTellsOccurrences(mid, seen, last, source);
      UpsertKeepsClaims(mid, claims, last, source);
      assert seen + [Sighting(source, last)] == log + SightingsOf(source, ms);
    }
  }

  lemma {:induction false} LinkAllTells(g: Graph, claims: seq<Claim>, fs: seq<Fact>, source: Id)
    requires RelationshipsTell(g, claims) && SourcesTell(g, claims) && forall f :: f in fs ==> Linkable(g, f)
    ensures var h, held := LinkAll(g, fs, source), claims + ClaimsOf(source, fs);
      RelationshipsTell(h, held) && SourcesTell(h, held)
  {
    if fs == [] {
      assert claims + [] == claims;
    } else {
      var init, last := fs[..|fs| - 1], fs[|fs| - 1];
      assert last in fs && Linkable(g, last);
      LinkAllTells(g, claims, init, source);
      var mid, held := LinkAll(g, init, source), claims + ClaimsOf(source, init);
      LinkTellsRelationships(mid, held, last, source);
      LinkTellsSources(mid, held, last, source);
      assert held + [Claim(source, last)] == claims + ClaimsOf(source, fs);
    }
  }

  lemma {:induction false} LinkAllKeepsSightings(g: Graph, log: seq<Sighting>, fs: seq<Fact>, source: Id)
    requires EntitiesTell(g, log) && OccurrencesTell(g, log) && forall f :: f in fs ==> Linkable(g, f)
    ensures EntitiesTell(LinkAll(g, fs, source), log) && OccurrencesTell(LinkAll(g, fs, source), log)
  {
    if fs != [] {
      assert fs[|fs| - 1] in fs && Linkable(g, fs[|fs| - 1]);
      LinkAllKeepsSightings(g, log, fs[..|fs| - 1], source);
      LinkKeepsSightings(LinkAll(g, fs[..|fs| - 1], source), log, fs[|fs| - 1], source);
    }
  }

  /** One more extraction is told exactly. */
  lemma {:induction false} ApplyTells(g: Graph, log: seq<Sighting>, claims: seq<Claim>, e: Extraction)
    requires GraphTells(g, log, claims) && Closed(e)
    ensures GraphTells(
      Apply(g, e), log + SightingsOf(e.sourceKey, e.mentions), claims + ClaimsOf(e.sourceKey, e.facts))
  {
    var mid := UpsertAll(g, e.mentions, e.sourceKey);
    UpsertAllTells(g, log, claims, e.mentions, e.sourceKey);
    UpsertAllHas(g, e.mentions, e.sourceKey);
    LinkAllTells(mid, claims, e.facts, e.sourceKey);
    LinkAllKeepsSightings(mid, log + SightingsOf(e.sourceKey, e.mentions), e.facts, e.sourceKey);
  }

  /**
   * The rows of a graph built from extractions are exactly what those extractions mention and hold: every
   * entity and relationship has an id of its own, and no row is there without a mention or fact behind it.
   */
  lemma {:induction false} ApplyAllTells(es: seq<Extraction>)
    requires AllClosed(es)
    ensures GraphTells(ApplyAll(EMPTY, es), Sightings(es), Claims(es))
  {
    if es != [] {
      var init, last := es[..|es| - 1], es[|es| - 1];
      ApplyAllTells(init);
      ApplyTells(ApplyAll(EMPTY, init), Sightings(init), Claims(init), last);
    }
  }

  // ----- Emails and the one-pass reference -----

  datatype Email = Email(id: nat, record: Record)

  /** Row ids are positive and increasing. */
  ghost predicate Mailbox(emails: seq<Email>) {
    && (forall i :: 0 <= i < |emails| ==> emails[i].id >= 1)
    && (forall i, j :: 0 <= i < j < |emails| ==> emails[i].id < emails[j].id)
  }

  /** `es` starts with the extractions of the first `k` emails, in order (unique by ExtractionUnique). */
  ghost predicate Extracts(emails: seq<Email>, es: seq<Extraction>, k: nat)
    requires k <= |emails|
  {
    k <= |es| && (k == 0 || (IsExtraction(emails[k - 1].record, es[k - 1]) && Extracts(emails, es, k - 1)))
  }

  lemma {:induction false} ExtractsAt(emails: seq<Email>, es: seq<Extraction>, k: nat, i: nat)
    requires i < k <= |emails| && Extracts(emails, es, k)
    ensures i < |es| && IsExtraction(emails[i].record, es[i])
  {
    if i < k - 1 {
      ExtractsAt(emails, es, k - 1, i);
    }
  }

  /** Every email table has its extractions. */
  lemma {:induction false} ExtractsExists(emails: seq<Email>, k: nat) returns (es: seq<Extraction>)
    requires k <= |emails|
    ensures |es| == k && Extracts(emails, es, k) && AllClosed(es)
    decreases k
  {
    if k == 0 {
      es := [];
    } else {
      var init := ExtractsExists(emails, k - 1);
      var record := emails[k - 1].record;
      ExtractionExists(record);
      var e :| IsExtraction(record, e);
      ExtractionsAreClosed(record, e);
      es := init + [e];
      ExtractsExtend(emails, init, es, k - 1);
    }
  }

  lemma {:induction false} ExtractsExtend(emails: seq<Email>, es: seq<Extraction>, more: seq<Extraction>, k: nat)
    requires k <= |emails| && es <= more && Extracts(emails, es, k)
    ensures Extracts(emails, more, k)
  {
    if k > 0 {
      ExtractsExtend(emails, es, more, k - 1);
    }
  }

  /** One in-order pass over the first `k` extractions. */
  ghost function OnePass(es: seq<Extraction>, k: nat): Graph
    requires AllClosed(es) && k <= |es|
  {
    assert forall e :: e in es[..k] ==> e in es;
    ApplyAll(EMPTY, es[..k])
  }

  function CheckpointAt(emails: seq<Email>, k: nat): nat
    requires k <= |emails|
  {
    if k == 0 then 0 else emails[k - 1].id
  }

  function LaterThan(id: nat): Email -> bool { (e: Email) => e.id > id }

  /** SELECT ... WHERE id > ? ORDER BY id LIMIT ?. */
  function RecordsAfter(emails: seq<Email>, id: nat, limit: nat): seq<Email> {
    var later := Filter(LaterThan(id), emails);
    later[..Min(limit, |later|)]
  }

  lemma {:induction false} LaterIsSuffix(emails: seq<Email>, k: nat)
    requires Mailbox(emails) && k <= |emails|
    ensures Filter(LaterThan(CheckpointAt(emails, k)), emails) == emails[k..]
  {
    var p := LaterThan(CheckpointAt(emails, k));
    assert forall i :: 0 <= i < |emails| ==> (p(emails[i]) <==> i >= k);
    assert emails == emails[..k] + emails[k..];
    FilterAppend(p, emails[..k], emails[k..]);
    FilterNone(p, emails[..k]);
    FilterAll(p, emails[k..]);
  }

  /** The page after the k-th checkpoint is the next slice of the table. */
  lemma {:induction false} PageIsNextSlice(emails: seq<Email>, k: nat, limit: nat)
    requires Mailbox(emails) && k <= |emails|
    ensures RecordsAfter(emails, CheckpointAt(emails, k), limit) == emails[k..Min(k + limit, |emails|)]
  {
    LaterIsSuffix(emails, k);
    var later := emails[k..];
    assert later[..Min(limit, |later|)] == emails[k..Min(k + limit, |emails|)];
  }

  /** Extending a one-pass graph by the next slice. */
  lemma {:induction false} OnePassExtends(es: seq<Extraction>, k: nat, n: nat)
    requires k <= n <= |es| && AllClosed(es)
    ensures AllClosed(es[k..n]) && ApplyAll(OnePass(es, k), es[k..n]) == OnePass(es, n)
  {
    SliceClosed(es, 0, k);
    SliceClosed(es, k, n);
    ApplyAllConcat(EMPTY, es[..k], es[k..n]);
    assert es[..k] + es[k..n] == es[..n];
  }

  /** The one-pass graph tells exactly what its extractions found. */
  lemma {:induction false} OnePassTells(es: seq<Extraction>, k: nat)
    requires AllClosed(es) && k <= |es|
    ensures GraphTells(OnePass(es, k), Sightings(es[..k]), Claims(es[..k]))
  {
    SliceClosed(es, 0, k);
    ApplyAllTells(es[..k]);
  }

  lemma {:induction false} SliceClosed(es: seq<Extraction>, k: nat, n: nat)
    requires k <= n <= |es| && AllClosed(es)
    ensures AllClosed(es[k..n])
  {
  }

  // ----- The store -----

  /** First loop of _apply_result: rows for the mentions, and the ids they resolved to. */
  method UpsertMentions(before: Graph, ms: seq<Mention>, source: Id) returns (g: Graph, ids: map<EntityKey, Id>)
    ensures g == UpsertAll(before, ms, source)
    ensures forall m :: m in ms ==> MentionedEntity(m) in ids
    ensures forall key :: key in ids ==> key in g.entities && ids[key] == g.entities[key].id
  {
    g, ids := before, map[];
    for k := 0 to |ms|
      invariant g == UpsertAll(before, ms[..k], source)
      invariant forall i :: 0 <= i < k ==> MentionedEntity(ms[i]) in ids
      invariant forall key :: key in ids ==> key in g.entities && ids[key] == g.entities[key].id
    {
      assert ms[..k + 1][..k] == ms[..k];
      g := Upsert(g, ms[k], source);
      ids := ids[MentionedEntity(ms[k]) := g.entities[MentionedEntity(ms[k])].id];
    }
    assert ms[..|ms|] == ms;
  }

  /** Second loop: relationships between the resolved ids, each with its source row. */
  method LinkFacts(before: Graph, fs: seq<Fact>, source: Id, ids: map<EntityKey, Id>) returns (g: Graph)
    requires forall f :: f in fs ==> Linkable(before, f) && Subject(f) in ids && Object(f) in ids
    requires forall key :: key in ids ==> key in before.entities && ids[key] == before.entities[key].id
    ensures g == LinkAll(before, fs, source)
  {
    g := before;
    for k := 0 to |fs|
      invariant g == LinkAll(before, fs[..k], source)
    {
      var f := fs[k];
      assert f in fs;
      assert fs[..k + 1][..k] == fs[..k];
      var triple := Triple(ids[Subject(f)], f.predicate_, ids[Object(f)]);
      var relationships := AddIfMissing(g.relationships, triple, |g.relationships| + 1);
      g := g.(relationships := relationships, sources := g.sources + {(relationships[triple], source)});
    }
    assert fs[..|fs|] == fs;
  }

  method ApplyResult(before: Graph, e: Extraction) returns (g: Graph)
    requires Closed(e)
    ensures g == Apply(before, e)
    ensures forall log, claims :: GraphTells(before, log, claims) ==>
      GraphTells(g, log + SightingsOf(e.sourceKey, e.mentions), claims + ClaimsOf(e.sourceKey, e.facts))
  {
    forall log, claims | GraphTells(before, log, claims) { ApplyTells(before, log, claims, e); }
    var mid, ids := UpsertMentions(before, e.mentions, e.sourceKey);
    g := LinkFacts(mid, e.facts, e.sourceKey, ids);
  }

  class GraphStore {
    var graph: Graph
    var checkpoint: nat
    var ruleVersion: Option<Id>

    constructor ()
      ensures graph == EMPTY && checkpoint == 0 && ruleVersion == None
    {
      graph, checkpoint, ruleVersion := EMPTY, 0, None;
    }

    /** Creates the state row, or refuses a different rule version. */
    method Initialise(version: Id) returns (ok: bool)
      modifies this
      ensures ok <==> old(ruleVersion) in {None, Some(version)}
      ensures graph == old(graph) && checkpoint == old(checkpoint)
      ensures ruleVersion == if ok then Some(version) else old(ruleVersion)
    {
      ok := ruleVersion.None? || ruleVersion == Some(version);
      if ok {
        ruleVersion := Some(version);
      }
    }

    /** One page and its checkpoint in one transaction. */
    method ApplyBatch(ids: seq<nat>, batch: seq<Extraction>)
      requires |ids| == |batch| && AllClosed(batch)
      modifies this
      ensures graph == ApplyAll(old(graph), batch) && ruleVersion == old(ruleVersion)
      ensures checkpoint == if ids == [] then old(checkpoint) else ids[|ids| - 1]
    {
      if batch == [] {
        return;
      }
      var g := graph;
      for k := 0 to |batch|
        invariant g == ApplyAll(old(graph), batch[..k]) && graph == old(graph)
        invariant checkpoint == old(checkpoint) && ruleVersion == old(ruleVersion)
      {
        assert batch[..k + 1][..k] == batch[..k];
        assert batch[k] in batch;
        g := ApplyResult(g, batch[k]);
      }
      assert batch[..|batch|] == batch;
      graph, checkpoint := g, ids[|ids| - 1];
    }
  }

  /** The store holds the one-pass graph of the first `k` emails and points at the k-th. */
  ghost predicate UpTo(store: GraphStore, emails: seq<Email>, es: seq<Extraction>, k: nat)
    requires AllClosed(es)
    reads store
  {
    k <= |emails| && k <= |es| && store.checkpoint == CheckpointAt(emails, k) && store.graph == OnePass(es, k)
  }

  /** So whatever any runs have left in a store is exactly what the first `k` emails mention and hold. */
  lemma {:induction false} UpToTells(store: GraphStore, emails: seq<Email>, es: seq<Extraction>, k: nat)
    requires AllClosed(es) && UpTo(store, emails, es, k)
    ensures GraphTells(store.graph, Sightings(es[..k]), Claims(es[..k]))
  {
    OnePassTells(es, k);
  }

  /** Extraction of a page yields exactly the next slice of the reference extractions. */
  method ExtractPage(
    page: seq<Email>, ghost emails: seq<Email>, ghost es: seq<Extraction>, ghost n: nat, ghost m: nat)
    returns (ids: seq<nat>, batch: seq<Extraction>)
    requires n <= m <= |emails| && page == emails[n..m] && Extracts(emails, es, |emails|)
    ensures m <= |es| && batch == es[n..m]
    ensures |ids| == |page| && forall i :: 0 <= i < |page| ==> ids[i] == page[i].id
  {
    ids, batch := [], [];
    for k := 0 to |page|
      invariant n + k <= |es| && batch == es[n..n + k]
      invariant |ids| == k && forall i :: 0 <= i < k ==> ids[i] == page[i].id
    {
      var e := Extract(page[k].record);
      ExtractsAt(emails, es, |emails|, n + k);
      ExtractionUnique(page[k].record, e, es[n + k]);
      ids, batch := ids + [page[k].id], batch + [e];
    }
  }

  /** One page of the table as it is when only the first `p` of the emails have arrived. */
  method ReadPage(store: GraphStore, emails: seq<Email>, p: nat, ghost n: nat, limit: nat) returns (page: seq<Email>)
    requires Mailbox(emails) && n <= p <= |emails| && store.checkpoint == CheckpointAt(emails, n)
    ensures n + |page| <= p && page == emails[n..n + |page|]
    ensures |page| <= limit && (|page| == limit || n + |page| == p)
  {
    PageIsNextSlice(emails[..p], n, limit);
    page := RecordsAfter(emails[..p], store.checkpoint, limit);
  }

  /** Extract one page and commit it with its checkpoint. */
  method CommitPage(
    store: GraphStore, ghost emails: seq<Email>, ghost es: seq<Extraction>, ghost n: nat, ghost m: nat,
    page: seq<Email>)
    requires AllClosed(es) && Extracts(emails, es, |emails|)
    requires UpTo(store, emails, es, n) && n < m <= |emails| && page == emails[n..m]
    modifies store
    ensures UpTo(store, emails, es, m)
  {
    var ids, batch := ExtractPage(page, emails, es, n, m);
    OnePassExtends(es, n, m);
    store.ApplyBatch(ids, batch);
  }

  /** Read a page and, if the process lives, commit it; None when there is nothing to read. */
  method Advance(
    store: GraphStore, emails: seq<Email>, p: nat, limit: nat, alive: bool, ghost es: seq<Extraction>, ghost n: nat)
    returns (size: Option<nat>)
    requires AllClosed(es) && Extracts(emails, es, |emails|) && Mailbox(emails)
    requires UpTo(store, emails, es, n) && n <= p <= |emails|
    modifies store
    ensures size.None? <==> n == p || limit == 0
    ensures size.Some? ==> 0 < size.value == Min(limit, p - n)
    ensures size.Some? && alive ==> UpTo(store, emails, es, n + size.value)
    ensures size.None? || !alive ==> UpTo(store, emails, es, n)
  {
    var page := ReadPage(store, emails, p, n, limit);
    if page == [] { return None; }
    if alive { CommitPage(store, emails, es, n, n + |page|, page); }
    return Some(|page|);
  }

  datatype Report = Report(processed: nat, lastEmailId: nat)

  predicate Accepts(batchSize: int, maxRecords: Option<int>) {
    batchSize >= 1 && (maxRecords.Some? ==> maxRecords.value >= 0)
  }

  /** How many emails have arrived at each successive page read; after the last entry none do. */
  type Arrivals = seq<nat>

  function Present(arrived: Arrivals, i: nat): nat {
    if arrived == [] then 0 else if i < |arrived| then arrived[i] else arrived[|arrived| - 1]
  }

  /** The table only grows. */
  ghost predicate Growing(arrived: Arrivals, bound: nat) {
    && (forall i :: 0 <= i < |arrived| ==> arrived[i] <= bound)
    && (forall i, j :: 0 <= i < j < |arrived| ==> arrived[i] <= arrived[j])
  }

  lemma {:induction false} PresentGrows(arrived: Arrivals, bound: nat, i: nat)
    requires Growing(arrived, bound)
    ensures Present(arrived, i) <= Present(arrived, i + 1) <= bound
  {
  }

  function PageLimit(batchSize: nat, maxRecords: Option<nat>, processed: nat): nat
    requires maxRecords.Some? ==> processed <= maxRecords.value
  {
    if maxRecords.None? then batchSize else Min(batchSize, maxRecords.value - processed)
  }

  /** Where a run that began at `k` stands after `pages` pages: each takes a full batch, or what is there or allowed. */
  function Reached(arrived: Arrivals, batchSize: int, maxRecords: Option<int>, k: int, pages: nat): int {
    if pages == 0 then k
    else
      var full := Min(Reached(arrived, batchSize, maxRecords, k, pages - 1) + batchSize, Present(arrived, pages - 1));
      if maxRecords.None? then full else Min(full, k + maxRecords.value)
  }

  /** There is another email to take, and the bound allows it. */
  predicate MoreToDo(arrived: Arrivals, maxRecords: Option<int>, k: int, pages: nat, n: int) {
    n < Present(arrived, pages) && (maxRecords.Some? ==> n < k + maxRecords.value)
  }

  lemma {:induction false} PageTaken(
    arrived: Arrivals, batchSize: nat, maxRecords: Option<nat>, k: nat, pages: nat, processed: nat)
    requires k + processed == Reached(arrived, batchSize, maxRecords, k, pages) && k + processed <= Present(arrived, pages)
    requires maxRecords.Some? ==> processed <= maxRecords.value
    ensures var limit := PageLimit(batchSize, maxRecords, processed);
      && Reached(arrived, batchSize, maxRecords, k, pages + 1)
           == k + processed + Min(limit, Present(arrived, pages) - k - processed)
      && (batchSize >= 1 ==>
            (MoreToDo(arrived, maxRecords, k, pages, k + processed) <==> limit > 0 && k + processed != Present(arrived, pages)))
  {
  }

  /** The page read number `pages` of a run. */
  method NextPage(
    store: GraphStore, emails: seq<Email>, arrived: Arrivals, batchSize: nat, maxRecords: Option<nat>, alive: bool,
    ghost es: seq<Extraction>, ghost k: nat, pages: nat, processed: nat)
    returns (size: Option<nat>)
    requires AllClosed(es) && Extracts(emails, es, |emails|) && Mailbox(emails) && Growing(arrived, |emails|)
    requires UpTo(store, emails, es, k + processed) && k + processed <= Present(arrived, pages) && batchSize >= 1
    requires maxRecords.Some? ==> processed < maxRecords.value
    requires k + processed == Reached(arrived, batchSize, maxRecords, k, pages)
    modifies store
    ensures size.None? <==> !MoreToDo(arrived, maxRecords, k, pages, k + processed)
    ensures size.Some? ==>
      && k + processed + size.value == Reached(arrived, batchSize, maxRecords, k, pages + 1)
      && 0 < size.value && k + processed + size.value <= Present(arrived, pages + 1) && k + processed + size.value <= |emails|
      && (maxRecords.Some? ==> processed + size.value <= maxRecords.value)
    ensures UpTo(store, emails, es, if size.Some? && alive then k + processed + size.value else k + processed)
  {
    PresentGrows(arrived, |emails|, pages);
    PageTaken(arrived, batchSize, maxRecords, k, pages, processed);
    size := Advance(
      store, emails, Present(arrived, pages), PageLimit(batchSize, maxRecords, processed), alive, es, k + processed);
  }

  /** The page loop; it is not done when the process dies before a commit. */
  method ReadPages(
    store: GraphStore, emails: seq<Email>, arrived: Arrivals, batchSize: nat, maxRecords: Option<nat>, lives: nat,
    ghost es: seq<Extraction>, ghost k: nat)
    returns (done: bool, processed: nat, pages: nat)
    requires AllClosed(es) && Extracts(emails, es, |emails|) && Mailbox(emails) && Growing(arrived, |emails|)
    requires UpTo(store, emails, es, k) && k <= Present(arrived, 0) && batchSize >= 1
    modifies store
    ensures UpTo(store, emails, es, k + processed) && k + processed <= Present(arrived, pages)
    ensures maxRecords.Some? ==> processed <= maxRecords.value
    ensures k + processed == Reached(arrived, batchSize, maxRecords, k, pages) && pages <= lives
    ensures done <==> !MoreToDo(arrived, maxRecords, k, pages, k + processed)
    ensures !done ==> pages == lives
  {
    done, processed, pages := false, 0, 0;
    while maxRecords.None? || processed < maxRecords.value
      invariant UpTo(store, emails, es, k + processed) && k + processed <= Present(arrived, pages)
      invariant maxRecords.Some? ==> processed <= maxRecords.value
      invariant k + processed == Reached(arrived, batchSize, maxRecords, k, pages) && pages <= lives
      decreases |emails| - processed
    {
      var size := NextPage(store, emails, arrived, batchSize, maxRecords, pages < lives, es, k, pages, processed);
      if size.None? {
        break;
      }
      if pages == lives {
        return;
      }
      processed, pages := processed + size.value, pages + 1;
    }
    done := true;
  }

  /**
   * KnowledgeExtractionPipeline.run while emails keep arriving: of all the emails that ever arrive, the
   * i-th page is read when `Present(arrived, i)` of them are there. `lives` is the number of pages committed before the
   * process dies; a run that dies or is refused returns no report.
   */
  method Run(
    store: GraphStore, emails: seq<Email>, arrived: Arrivals, version: Id, batchSize: int, maxRecords: Option<int>,
    lives: nat, ghost es: seq<Extraction>, ghost k: nat)
    returns (report: Option<Report>, ghost n: nat, ghost pages: nat)
    requires AllClosed(es) && Extracts(emails, es, |emails|) && Mailbox(emails) && Growing(arrived, |emails|)
    requires UpTo(store, emails, es, k) && k <= Present(arrived, 0)
    modifies store
    ensures k <= n <= Present(arrived, pages) && UpTo(store, emails, es, n)
    ensures maxRecords.Some? && maxRecords.value >= 0 ==> n <= k + maxRecords.value
    ensures report.Some? ==> report.value == Report(n - k, CheckpointAt(emails, n))
    // it reports unless it is refused, or dies with something left to do
    ensures var refused := !Accepts(batchSize, maxRecords) || old(store.ruleVersion) !in {None, Some(version)};
      && (report.None? <==> refused || MoreToDo(arrived, maxRecords, k, pages, n))
      && (refused ==> n == k)
      && (!refused ==> n == Reached(arrived, batchSize, maxRecords, k, pages) && pages <= lives)
      && (report.None? && !refused ==> pages == lives)
  {
    report, n, pages := None, k, 0;
    if !Accepts(batchSize, maxRecords) {
      return;
    }
    var ok := store.Initialise(version);
    if !ok {
      return;
    }
    var bound: Option<nat> := if maxRecords.None? then None else Some(maxRecords.value);
    var done, processed;
    done, processed, pages := ReadPages(store, emails, arrived, batchSize, bound, lives, es, k);
    n := k + processed;
    if done {
      report := Some(Report(processed, store.checkpoint));
    }
  }

  datatype Request = Request(arrived: Arrivals, version: Id, batchSize: int, maxRecords: Option<int>, lives: nat)

  /** The email table only grows, within a run and from one run to the next. */
  ghost predicate AppendOnly(requests: seq<Request>, bound: nat) {
    && (forall i :: 0 <= i < |requests| ==> Growing(requests[i].arrived, bound))
    && (forall i, j, p :: 0 <= i < j < |requests| ==> Present(requests[i].arrived, p) <= Present(requests[j].arrived, 0))
  }

  /** Any sequence of runs, of any sizes, dying anywhere: always the one-pass graph up to the checkpoint. */
  method RunMany(store: GraphStore, emails: seq<Email>, requests: seq<Request>, ghost es: seq<Extraction>)
    returns (ghost n: nat)
    requires AllClosed(es) && Extracts(emails, es, |emails|) && Mailbox(emails) && AppendOnly(requests, |emails|)
    requires store.graph == EMPTY && store.checkpoint == 0
    modifies store
    ensures UpTo(store, emails, es, n) && GraphTells(store.graph, Sightings(es[..n]), Claims(es[..n]))
  {
    n := 0;
    ghost var last := 0;
    for i := 0 to |requests|
      invariant UpTo(store, emails, es, n)
      invariant i == 0 ==> n == 0
      invariant i > 0 ==> n <= Present(requests[i - 1].arrived, last)
    {
      var q := requests[i];
      var report;
      report, n, last := Run(store, emails, q.arrived, q.version, q.batchSize, q.maxRecords, q.lives, es, n);
    }
    UpToTells(store, emails, es, n);
  }
}
