/** Evidence values and the balanced selection of intelligence/context.py. */
module RoundRobin {
  import opened Sequences
  import opened Policy

  datatype Score = Finite(value: real) | NotFinite

  datatype Provenance = Provenance(domain: SecurityDomain, classification: Classification)

  /** `instance` 0 stands for the empty source instance identity. */
  datatype Evidence = Evidence(
    contextId: Id, capabilityId: Id, instance: Id, score: Score, provenance: seq<Provenance>, body: Id)

  datatype Family = Family(capabilityId: Id, instance: Id)

  function FamilyOf(e: Evidence): Family { Family(e.capabilityId, e.instance) }

  function InFamily(f: Family): Evidence -> bool { (e: Evidence) => FamilyOf(e) == f }

  predicate FamilyBefore(a: Family, b: Family) {
    a.capabilityId < b.capabilityId || (a.capabilityId == b.capabilityId && a.instance <= b.instance)
  }

  function Rank(e: Evidence): real {
    match e.score
    case Finite(value) => value
    case NotFinite => 0.0
  }

  /** The (-score, context id) order. */
  predicate RankedBefore(a: Evidence, b: Evidence) {
    Rank(a) > Rank(b) || (Rank(a) == Rank(b) && a.contextId <= b.contextId)
  }

  ghost predicate DistinctIds(s: seq<Evidence>) {
    forall i, j :: 0 <= i < j < |s| ==> s[i].contextId != s[j].contextId
  }

  /** A family's evidence, best first. */
  function Queue(pool: seq<Evidence>, f: Family): seq<Evidence> {
    Filter(InFamily(f), Sort(RankedBefore, pool))
  }

  /** How many items of its own family precede position `i`: the round in which `s[i]` was taken. */
  function RoundOf(s: seq<Evidence>, i: nat): nat
    requires i < |s|
  {
    Count(InFamily(FamilyOf(s[i])), s[..i])
  }

  /** Position `i` was served before position `j`: an earlier round, or the same round and an earlier family. */
  ghost predicate ServedBefore(s: seq<Evidence>, i: nat, j: nat)
    requires i < |s| && j < |s|
  {
    || RoundOf(s, i) < RoundOf(s, j)
    || (RoundOf(s, i) == RoundOf(s, j)
        && (s[i].capabilityId < s[j].capabilityId
            || (s[i].capabilityId == s[j].capabilityId && s[i].instance < s[j].instance)))
  }

  /** The contract of balanced selection, independent of how it is computed. */
  ghost predicate Balanced(pool: seq<Evidence>, limit: nat, out: seq<Evidence>) {
    // as much as the limit and the pool allow, nothing invented, nothing twice
    && |out| == Min(limit, |pool|)
    && Distinct(out) && (forall x :: x in out ==> x in pool)
    // every family contributes a prefix of its own best-first order
    && (forall f :: Filter(InFamily(f), out) <= Queue(pool, f))
    // a family with evidence left over is at most one selection behind any other
    && (forall f, g :: Count(InFamily(f), out) < |Queue(pool, f)|
          ==> Count(InFamily(g), out) <= Count(InFamily(f), out) + 1)
    // rounds follow one another and visit families in order
    && (forall i, j :: 0 <= i < j < |out| ==> ServedBefore(out, i, j))
  }

  /** How far each family has been served: `r` rounds, and one more for the families in `done`. */
  function Served(queue: seq<Evidence>, f: Family, r: nat, done: set<Family>): nat {
    Min(if f in done then r + 1 else r, |queue|)
  }

  /** Family `f` has been served `n` items of its queue. */
  ghost predicate ServedTo(queue: seq<Evidence>, left: map<Family, seq<Evidence>>, out: seq<Evidence>, f: Family, n: nat) {
    && n <= |queue| && Filter(InFamily(f), out) == queue[..n]
    && (f in left <==> n < |queue|)
    && (f in left ==> left[f] == queue[n..])
  }

  ghost predicate Progress(
    all: map<Family, seq<Evidence>>, left: map<Family, seq<Evidence>>, out: seq<Evidence>,
    r: nat, done: set<Family>)
  {
    && left.Keys <= all.Keys
    && (forall x :: x in out ==> FamilyOf(x) in all)
    && (forall f :: f in all ==> ServedTo(all[f], left, out, f, Served(all[f], f, r, done)))
  }

  ghost predicate ServedInOrder(out: seq<Evidence>) {
    forall i, j :: 0 <= i < j < |out| ==> ServedBefore(out, i, j)
  }

  /** All earlier selections precede the turn of family `f` in round `r`. */
  ghost predicate AllBefore(out: seq<Evidence>, r: nat, f: Family) {
    forall i :: 0 <= i < |out| ==>
      RoundOf(out, i) < r
      || (RoundOf(out, i) == r && FamilyBefore(FamilyOf(out[i]), f) && FamilyOf(out[i]) != f)
  }

  lemma {:induction false} OrdersAreTotal()
    ensures TotalPreorder(FamilyBefore) && TotalPreorder(RankedBefore)
  {
  }

  lemma {:induction false} QueueFacts(pool: seq<Evidence>, f: Family)
    requires Distinct(pool)
    ensures Distinct(Queue(pool, f))
    ensures forall x :: x in Queue(pool, f) <==> x in pool && FamilyOf(x) == f
  {
    OrdersAreTotal();
    SortCorrect(RankedBefore, pool);
    FilterDistinct(InFamily(f), Sort(RankedBefore, pool));
    FilterMembers(InFamily(f), Sort(RankedBefore, pool));
  }

  /** What an item counts for: its score, and nothing when it has no finite one. */
  function Worth(e: Evidence): real { if e.score.Finite? then e.score.value else 0.0 }

  /** Within a family the best are selected, and listed best first; equal scores go by identifier. */
  ghost predicate BestFirst(pool: seq<Evidence>, out: seq<Evidence>) {
    && (forall x, y :: x in out && y in pool && y !in out && FamilyOf(x) == FamilyOf(y) ==>
          Worth(x) > Worth(y) || (Worth(x) == Worth(y) && x.contextId <= y.contextId))
    && (forall i, j :: 0 <= i < j < |out| && FamilyOf(out[i]) == FamilyOf(out[j]) ==>
          Worth(out[i]) > Worth(out[j]) || (Worth(out[i]) == Worth(out[j]) && out[i].contextId <= out[j].contextId))
  }

  lemma {:induction false} FilterSorted<T(!new)>(leq: (T, T) -> bool, p: T -> bool, s: seq<T>)
    requires Sorted(leq, s)
    ensures Sorted(leq, Filter(p, s))
  {
    if s != [] {
      FilterSorted(leq, p, s[1..]);
      FilterMembers(p, s[1..]);
      forall x | x in Filter(p, s[1..]) ensures leq(s[0], x) { assert x in s[1..]; }
    }
  }

  /** Positions of one family appear in its own filtered list in the same order. */
  lemma {:induction false} FilterKeepsOrder<T>(p: T -> bool, s: seq<T>, i: nat, j: nat)
    requires i < j < |s| && p(s[i]) && p(s[j])
    ensures exists a, b :: 0 <= a < b < |Filter(p, s)| && Filter(p, s)[a] == s[i] && Filter(p, s)[b] == s[j]
  {
    assert s == s[..i] + s[i..] && s[i..] == [s[i]] + s[i + 1..];
    FilterAppend(p, s[..i], s[i..]);
    assert s[j] in s[i + 1..];
    FilterMember(p, s[i + 1..], s[j]);
    var b :| 0 <= b < |Filter(p, s[i + 1..])| && Filter(p, s[i + 1..])[b] == s[j];
    assert Filter(p, s[i..]) == [s[i]] + Filter(p, s[i + 1..]);
    var n := |Filter(p, s[..i])|;
    assert Filter(p, s)[n] == s[i] && Filter(p, s)[n + 1 + b] == s[j];
  }

  lemma {:induction false} QueueIsSorted(pool: seq<Evidence>, f: Family)
    ensures Sorted(RankedBefore, Queue(pool, f))
  {
    OrdersAreTotal();
    SortCorrect(RankedBefore, pool);
    FilterSorted(RankedBefore, InFamily(f), Sort(RankedBefore, pool));
  }

  lemma {:induction false} SelectedRanksBefore(pool: seq<Evidence>, out: seq<Evidence>, x: Evidence, y: Evidence)
    requires Distinct(pool) && Filter(InFamily(FamilyOf(x)), out) <= Queue(pool, FamilyOf(x))
    requires x in out && y in pool && y !in out && FamilyOf(x) == FamilyOf(y)
    ensures RankedBefore(x, y)
  {
    var f := FamilyOf(x);
    var queue, taken := Queue(pool, f), Filter(InFamily(f), out);
    QueueIsSorted(pool, f);
    QueueFacts(pool, f);
    FilterMember(InFamily(f), out, x);
    FilterMember(InFamily(f), out, y);
    var a :| 0 <= a < |taken| && taken[a] == x;
    var b :| 0 <= b < |queue| && queue[b] == y;
    assert queue[a] == x && a < |taken| <= b by { assert queue[..|taken|] == taken; assert y !in taken; }
  }

  lemma {:induction false} ListedInRank(pool: seq<Evidence>, out: seq<Evidence>, i: nat, j: nat)
    requires i < j < |out| && FamilyOf(out[i]) == FamilyOf(out[j])
    requires Filter(InFamily(FamilyOf(out[i])), out) <= Queue(pool, FamilyOf(out[i]))
    ensures RankedBefore(out[i], out[j])
  {
    var f := FamilyOf(out[i]);
    var queue, taken := Queue(pool, f), Filter(InFamily(f), out);
    QueueIsSorted(pool, f);
    FilterKeepsOrder(InFamily(f), out, i, j);
    var a, b :| 0 <= a < b < |taken| && taken[a] == out[i] && taken[b] == out[j];
    assert queue[a] == out[i] && queue[b] == out[j];
  }

  /** A balanced selection takes the best of every family. */
  lemma {:induction false} BalancedIsBestFirst(pool: seq<Evidence>, limit: nat, out: seq<Evidence>)
    requires Distinct(pool) && Balanced(pool, limit, out)
    ensures BestFirst(pool, out)
  {
    PrefixesAreBestFirst(pool, out);
  }

  lemma {:induction false} PrefixesAreBestFirst(pool: seq<Evidence>, out: seq<Evidence>)
    requires Distinct(pool) && forall x :: x in out ==> x in pool
    requires forall f :: Filter(InFamily(f), out) <= Queue(pool, f)
    ensures BestFirst(pool, out)
  {
    forall x, y | x in out && y in pool && y !in out && FamilyOf(x) == FamilyOf(y) ensures RankedBefore(x, y) {
      SelectedRanksBefore(pool, out, x, y);
    }
    forall i, j | 0 <= i < j < |out| && FamilyOf(out[i]) == FamilyOf(out[j]) ensures RankedBefore(out[i], out[j]) {
      ListedInRank(pool, out, i, j);
    }
  }

  /** Group the ranked pool by family (the `setdefault(...).append` loop). */
  method GroupByFamily(pool: seq<Evidence>) returns (families: map<Family, seq<Evidence>>)
    ensures forall f :: f in families ==> families[f] == Queue(pool, f) && families[f] != []
    ensures forall f :: f !in families ==> Queue(pool, f) == []
  {
    var ranked := Sort(RankedBefore, pool);
    families := map[];
    for k := 0 to |ranked|
      invariant forall f :: f in families ==>
        families[f] == Filter(InFamily(f), ranked[..k]) && families[f] != []
      invariant forall f :: f !in families ==> Filter(InFamily(f), ranked[..k]) == []
    {
      var item := ranked[k];
      var key := FamilyOf(item);
      assert ranked[..k + 1] == ranked[..k] + [item];
      forall f ensures Filter(InFamily(f), ranked[..k + 1])
                    == Filter(InFamily(f), ranked[..k]) + (if f == key then [item] else [])
      {
        FilterSnoc(InFamily(f), ranked[..k], item);
      }
      families := families[key := (if key in families then families[key] else []) + [item]];
    }
    assert ranked[..|ranked|] == ranked;
  }

  function Popped(left: map<Family, seq<Evidence>>, f: Family): map<Family, seq<Evidence>>
    requires f in left && left[f] != []
  {
    if |left[f]| == 1 then left - {f} else left[f := left[f][1..]]
  }

  lemma {:induction false} ServeSelf(
    queue: seq<Evidence>, left: map<Family, seq<Evidence>>, out: seq<Evidence>, f: Family, n: nat)
    requires ServedTo(queue, left, out, f, n) && n < |queue| && FamilyOf(queue[n]) == f
    ensures left[f] != [] && left[f][0] == queue[n]
    ensures ServedTo(queue, Popped(left, f), out + [queue[n]], f, n + 1)
  {
    FilterSnoc(InFamily(f), out, queue[n]);
    assert queue[..n + 1] == queue[..n] + [queue[n]];
    assert queue[n..][1..] == queue[n + 1..];
  }

  lemma {:induction false} ServeOther(
    queue: seq<Evidence>, left: map<Family, seq<Evidence>>, out: seq<Evidence>, f: Family, n: nat,
    x: Evidence, served: Family)
    requires ServedTo(queue, left, out, f, n) && FamilyOf(x) == served != f
    requires served in left && left[served] != []
    ensures ServedTo(queue, Popped(left, served), out + [x], f, n)
  {
    FilterSnoc(InFamily(f), out, x);
  }

  /** Serving one more item of `f` keeps the bookkeeping. */
  lemma {:induction false} ServeOne(
    all: map<Family, seq<Evidence>>, left: map<Family, seq<Evidence>>, out: seq<Evidence>,
    r: nat, done: set<Family>, f: Family)
    requires Progress(all, left, out, r, done)
    requires f in left && f !in done
    requires forall g, x :: g in all && x in all[g] ==> FamilyOf(x) == g
    ensures left[f] != [] && r < |all[f]| && left[f][0] == all[f][r]
    ensures Progress(all, Popped(left, f), out + [left[f][0]], r, done + {f})
    ensures Filter(InFamily(f), out) == all[f][..r] && FamilyOf(all[f][r]) == f
  {
    assert ServedTo(all[f], left, out, f, Served(all[f], f, r, done));
    var x := all[f][r];
    assert x in all[f];
    ServeSelf(all[f], left, out, f, r);
    forall g | g in all ensures ServedTo(all[g], Popped(left, f), out + [x], g, Served(all[g], g, r, done + {f})) {
      assert ServedTo(all[g], left, out, g, Served(all[g], g, r, done));
      if g != f {
        ServeOther(all[g], left, out, g, Served(all[g], g, r, done), x, f);
      }
    }
  }

  lemma {:induction false} RoundOfSnoc(out: seq<Evidence>, x: Evidence)
    ensures RoundOf(out + [x], |out|) == Count(InFamily(FamilyOf(x)), out)
    ensures forall i :: 0 <= i < |out| ==> RoundOf(out + [x], i) == RoundOf(out, i)
  {
    assert (out + [x])[..|out|] == out;
    forall i | 0 <= i < |out| ensures RoundOf(out + [x], i) == RoundOf(out, i) {
      assert (out + [x])[..i] == out[..i];
    }
  }

  ghost predicate RoundsBelow(out: seq<Evidence>, r: nat) {
    forall i :: 0 <= i < |out| ==> RoundOf(out, i) < r
  }

  lemma {:induction false} ServeOneOrder(out: seq<Evidence>, x: Evidence, r: nat)
    requires ServedInOrder(out) && AllBefore(out, r, FamilyOf(x))
    requires Count(InFamily(FamilyOf(x)), out) == r
    ensures ServedInOrder(out + [x]) && RoundsBelow(out + [x], r + 1)
    ensures forall f :: FamilyBefore(FamilyOf(x), f) && f != FamilyOf(x) ==> AllBefore(out + [x], r, f)
  {
    RoundOfSnoc(out, x);
    var longer := out + [x];
    forall i, j | 0 <= i < j < |longer| ensures ServedBefore(longer, i, j) {
      if j < |out| {
        assert ServedBefore(out, i, j);
      }
    }
  }

  lemma {:induction false} NewItem(out: seq<Evidence>, queue: seq<Evidence>, r: nat)
    requires r < |queue| && Distinct(queue)
    requires Filter(InFamily(FamilyOf(queue[r])), out) == queue[..r]
    ensures Distinct(out) ==> Distinct(out + [queue[r]])
  {
    FilterMember(InFamily(FamilyOf(queue[r])), out, queue[r]);
  }

  /** A full round over every remaining family is the start of the next round. */
  lemma {:induction false} NextRound(
    all: map<Family, seq<Evidence>>, left: map<Family, seq<Evidence>>, out: seq<Evidence>,
    r: nat, done: set<Family>)
    requires Progress(all, left, out, r, done)
    requires forall f :: f in all && |all[f]| > r ==> f in done
    ensures Progress(all, left, out, r + 1, {})
  {
  }

  /** When the loop stops, the bookkeeping gives the whole contract. */
  lemma {:induction false} Finished(
    pool: seq<Evidence>, limit: nat, all: map<Family, seq<Evidence>>, left: map<Family, seq<Evidence>>,
    out: seq<Evidence>, r: nat, done: set<Family>)
    requires Distinct(pool) && Distinct(out)
    requires forall f :: f in all ==> all[f] == Queue(pool, f)
    requires forall f :: f !in all ==> Queue(pool, f) == []
    requires Progress(all, left, out, r, done) && ServedInOrder(out)
    requires |out| <= limit && (left == map[] || |out| == limit)
    ensures Balanced(pool, limit, out)
  {
    forall f ensures
      && Filter(InFamily(f), out) <= Queue(pool, f)
      && (f in all ==> Count(InFamily(f), out) == Served(all[f], f, r, done))
      && (f !in all ==> Count(InFamily(f), out) == 0)
    {
      if f !in all {
        FilterNone(InFamily(f), out);
      }
    }
    forall x ensures x in out ==> x in pool ensures left == map[] && x in pool ==> x in out {
      QueueFacts(pool, FamilyOf(x));
      FilterMember(InFamily(FamilyOf(x)), out, x);
    }
    DistinctLength(out, pool);
    if left == map[] {
      DistinctLength(pool, out);
    }
  }

  /** The families' queues: disjoint, duplicate-free, all drawn from the pool. */
  ghost predicate Queues(pool: seq<Evidence>, all: map<Family, seq<Evidence>>) {
    && (forall f :: f in all ==> Distinct(all[f]))
    && (forall f, x :: f in all && x in all[f] ==> FamilyOf(x) == f && x in pool)
  }

  /** Serving the head of `f`'s queue in round `r`. */
  lemma {:induction false} Serve(
    pool: seq<Evidence>, all: map<Family, seq<Evidence>>, left: map<Family, seq<Evidence>>,
    out: seq<Evidence>, r: nat, done: set<Family>, f: Family)
    requires Queues(pool, all)
    requires Progress(all, left, out, r, done) && ServedInOrder(out) && Distinct(out)
    requires f in left && f !in done && AllBefore(out, r, f)
    ensures left[f] != [] && Progress(all, Popped(left, f), out + [left[f][0]], r, done + {f})
    ensures ServedInOrder(out + [left[f][0]]) && Distinct(out + [left[f][0]])
    ensures RoundsBelow(out + [left[f][0]], r + 1)
    ensures forall g :: FamilyBefore(f, g) && g != f ==> AllBefore(out + [left[f][0]], r, g)
  {
    ServeOne(all, left, out, r, done, f);
    ServeOneOrder(out, left[f][0], r);
    NewItem(out, all[f], r);
  }

  lemma {:induction false} DueAreWaiting(
    all: map<Family, seq<Evidence>>, waiting: map<Family, seq<Evidence>>, served: seq<Evidence>, r: nat)
    requires Progress(all, waiting, served, r, {})
    ensures forall f :: f in all && |all[f]| > r ==> f in waiting
  {
  }

  /** Inside round `r`: the first `k` families of `order` have been served, the others wait their turn. */
  ghost predicate MidRound(
    all: map<Family, seq<Evidence>>, left: map<Family, seq<Evidence>>, out: seq<Evidence>,
    r: nat, done: set<Family>, order: seq<Family>, k: nat)
  {
    && k <= |order|
    && Progress(all, left, out, r, done) && ServedInOrder(out) && Distinct(out) && RoundsBelow(out, r + 1)
    && (forall i :: 0 <= i < k ==> order[i] in done)
    && (forall i :: k <= i < |order| ==>
          order[i] !in done && order[i] in left && left[order[i]] != [] && AllBefore(out, r, order[i]))
  }

  lemma {:induction false} ServeNext(
    pool: seq<Evidence>, all: map<Family, seq<Evidence>>, left: map<Family, seq<Evidence>>,
    out: seq<Evidence>, r: nat, done: set<Family>, order: seq<Family>, k: nat)
    requires Queues(pool, all) && MidRound(all, left, out, r, done, order, k) && k < |order|
    requires Distinct(order) && Sorted(FamilyBefore, order)
    ensures MidRound(all, Popped(left, order[k]), out + [left[order[k]][0]], r, done + {order[k]}, order, k + 1)
  {
    var f := order[k];
    Serve(pool, all, left, out, r, done, f);
    forall i | k < i < |order|
      ensures order[i] in Popped(left, f) && Popped(left, f)[order[i]] == left[order[i]]
      ensures AllBefore(out + [left[f][0]], r, order[i])
    {
      assert FamilyBefore(f, order[i]) && f != order[i];
    }
  }

  /** One pass of the inner loop: every remaining family in order, until the limit stops it. */
  method ServeRound(
    ghost pool: seq<Evidence>, limit: nat, ghost all: map<Family, seq<Evidence>>,
    waiting: map<Family, seq<Evidence>>, served: seq<Evidence>, ghost r: nat)
    returns (families: map<Family, seq<Evidence>>, out: seq<Evidence>, ghost done: set<Family>)
    requires Queues(pool, all)
    requires Progress(all, waiting, served, r, {}) && ServedInOrder(served) && Distinct(served)
    requires RoundsBelow(served, r)
    requires waiting != map[] && |served| < limit
    ensures Progress(all, families, out, r, done) && ServedInOrder(out) && Distinct(out)
    ensures RoundsBelow(out, r + 1)
    ensures |served| < |out| <= limit
    ensures |out| < limit ==> forall f :: f in waiting ==> f in done
  {
    OrdersAreTotal();
    var order := SortKeys(FamilyBefore, waiting.Keys);
    assert order != [] by {
      var f :| f in waiting;
      assert f in order;
    }
    families, out, done := waiting, served, {};
    var k := 0;
    while k < |order| && |out| < limit
      invariant |out| == |served| + k <= limit
      invariant MidRound(all, families, out, r, done, order, k)
    {
      ServeNext(pool, all, families, out, r, done, order, k);
      var f := order[k];
      out, families, done := out + [families[f][0]], Popped(families, f), done + {f};
      k := k + 1;
    }
  }

  /** The round-robin loop meets its contract for every pool of distinct evidence and every limit. */
  method SelectBalanced(pool: seq<Evidence>, limit: nat) returns (out: seq<Evidence>)
    requires Distinct(pool)
    ensures Balanced(pool, limit, out) && BestFirst(pool, out)
  {
    var families := GroupByFamily(pool);
    ghost var all := families;
    forall f | f in all
      ensures Distinct(all[f]) && forall x :: x in all[f] ==> FamilyOf(x) == f && x in pool
    {
      QueueFacts(pool, f);
    }
    ghost var r: nat, done: set<Family> := 0, {};
    out := [];
    while families != map[] && |out| < limit
      invariant |out| <= limit
      invariant Progress(all, families, out, r, done) && ServedInOrder(out) && Distinct(out)
      invariant |out| < limit ==> done == {} && RoundsBelow(out, r)
      decreases limit - |out|
    {
      DueAreWaiting(all, families, out, r);
      families, out, done := ServeRound(pool, limit, all, families, out, r);
      if |out| < limit {
        NextRound(all, families, out, r, done);
        r, done := r + 1, {};
      }
    }
    Finished(pool, limit, all, families, out, r, done);
    BalancedIsBestFirst(pool, limit, out);
  }
}
