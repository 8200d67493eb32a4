/** Options, filtering and sorting shared by the component models. */
module Sequences {

  datatype Option<+T> = None | Some(value: T)

  function Min(a: int, b: int): int { if a <= b then a else b }

  function Max(a: int, b: int): int { if a >= b then a else b }

  /** Occurrences of the elements satisfying `p`, in order. */
  function Filter<T>(p: T -> bool, s: seq<T>): seq<T> {
    if s == [] then []
    else (if p(s[0]) then [s[0]] else []) + Filter(p, s[1..])
  }

  /** Number of elements satisfying `p` (Python's `sum(condition for ...)`). */
  function Count<T>(p: T -> bool, s: seq<T>): nat {
    |Filter(p, s)|
  }

  lemma {:induction false} FilterAppend<T>(p: T -> bool, s: seq<T>, t: seq<T>)
    ensures Filter(p, s + t) == Filter(p, s) + Filter(p, t)
  {
    if s == [] {
      assert s + t == t;
    } else {
      FilterAppend(p, s[1..], t);
      assert (s + t)[1..] == s[1..] + t && (s + t)[0] == s[0];
      var head := if p(s[0]) then [s[0]] else [];
      assert Filter(p, s + t) == head + (Filter(p, s[1..]) + Filter(p, t));
      assert head + (Filter(p, s[1..]) + Filter(p, t)) == (head + Filter(p, s[1..])) + Filter(p, t);
    }
  }

  lemma {:induction false} FilterSnoc<T>(p: T -> bool, s: seq<T>, x: T)
    ensures Filter(p, s + [x]) == Filter(p, s) + (if p(x) then [x] else [])
  {
    FilterAppend(p, s, [x]);
    assert Filter(p, [x]) == (if p(x) then [x] else []) + Filter(p, []);
  }

  lemma {:induction false} FilterMember<T>(p: T -> bool, s: seq<T>, x: T)
    ensures x in Filter(p, s) <==> x in s && p(x)
  {
    if s != [] {
      FilterMember(p, s[1..], x);
      assert s == [s[0]] + s[1..];
    }
  }

  lemma {:induction false} FilterMembers<T>(p: T -> bool, s: seq<T>)
    ensures forall x :: x in Filter(p, s) <==> x in s && p(x)
  {
    forall x ensures x in Filter(p, s) <==> x in s && p(x) {
      FilterMember(p, s, x);
    }
  }

  lemma {:induction false} FilterCongruent<T>(p: T -> bool, q: T -> bool, s: seq<T>)
    requires forall x :: x in s ==> p(x) == q(x)
    ensures Filter(p, s) == Filter(q, s)
  {
    if s != [] {
      assert s[0] in s;
      FilterCongruent(p, q, s[1..]);
    }
  }

  lemma {:induction false} FilterTwice<T(!new)>(p: T -> bool, q: T -> bool, both: T -> bool, s: seq<T>)
    requires forall x :: both(x) == (p(x) && q(x))
    ensures Filter(p, Filter(q, s)) == Filter(both, s)
  {
    if s != [] {
      FilterTwice(p, q, both, s[1..]);
      FilterAppend(p, if q(s[0]) then [s[0]] else [], Filter(q, s[1..]));
      if q(s[0]) {
        assert Filter(p, [s[0]]) == (if p(s[0]) then [s[0]] else []) + Filter(p, []);
      }
    }
  }

  lemma {:induction false} FilterNone<T>(p: T -> bool, s: seq<T>)
    requires forall x :: x in s ==> !p(x)
    ensures Filter(p, s) == []
  {
    if s != [] {
      assert s[0] in s;
      FilterNone(p, s[1..]);
    }
  }

  lemma {:induction false} FilterAll<T>(p: T -> bool, s: seq<T>)
    requires forall x :: x in s ==> p(x)
    ensures Filter(p, s) == s
  {
    if s != [] {
      assert s[0] in s;
      FilterAll(p, s[1..]);
    }
  }

  lemma {:induction false} CountSplit<T>(p: T -> bool, q: T -> bool, r: T -> bool, s: seq<T>)
    requires forall x :: x in s ==> p(x) == (q(x) || r(x)) && !(q(x) && r(x))
    ensures Count(p, s) == Count(q, s) + Count(r, s)
  {
    if s != [] {
      assert s[0] in s;
      CountSplit(p, q, r, s[1..]);
    }
  }

  lemma {:induction false} MapGrows<K, V>(m: map<K, V>, k: K, v: V)
    requires k !in m
    ensures |m[k := v]| == |m| + 1
  {
    assert m[k := v].Keys == m.Keys + {k};
    assert |m[k := v].Keys| == |m.Keys| + 1;
  }

  ghost predicate Distinct<T>(s: seq<T>) {
    forall i, j :: 0 <= i < j < |s| ==> s[i] != s[j]
  }

  ghost predicate SameMembers<T(!new)>(s: seq<T>, t: seq<T>) {
    forall x :: x in s <==> x in t
  }

  lemma {:induction false} FilterDistinct<T>(p: T -> bool, s: seq<T>)
    requires Distinct(s)
    ensures Distinct(Filter(p, s))
  {
    if s != [] {
      FilterDistinct(p, s[1..]);
      FilterMember(p, s[1..], s[0]);
      assert s[0] !in s[1..];
    }
  }

  /** Duplicate-free sequences with the same members have the same length. */
  lemma {:induction false} DistinctLength<T(!new)>(s: seq<T>, t: seq<T>)
    requires Distinct(s) && forall x :: x in s ==> x in t
    ensures |s| <= |t|
  {
    if s != [] {
      assert s[0] in s;
      var i :| 0 <= i < |t| && t[i] == s[0];
      var rest := t[..i] + t[i + 1..];
      forall x | x in s[1..] ensures x in rest {
        assert x != s[0] && x in s;
      }
      DistinctLength(s[1..], rest);
    }
  }

  // ----- Sorting by a total preorder (Python's stable `sorted`) -----

  ghost predicate TotalPreorder<T(!new)>(leq: (T, T) -> bool) {
    && (forall x, y :: leq(x, y) || leq(y, x))
    && (forall x, y, z :: leq(x, y) && leq(y, z) ==> leq(x, z))
  }

  ghost predicate Sorted<T>(leq: (T, T) -> bool, s: seq<T>) {
    forall i, j :: 0 <= i < j < |s| ==> leq(s[i], s[j])
  }

  function InsertSorted<T>(leq: (T, T) -> bool, x: T, s: seq<T>): seq<T> {
    if s == [] || leq(x, s[0]) then [x] + s
    else [s[0]] + InsertSorted(leq, x, s[1..])
  }

  function Sort<T>(leq: (T, T) -> bool, s: seq<T>): seq<T> {
    if s == [] then [] else InsertSorted(leq, s[0], Sort(leq, s[1..]))
  }

  lemma {:induction false} InsertSortedCorrect<T(!new)>(leq: (T, T) -> bool, x: T, s: seq<T>)
    requires TotalPreorder(leq) && Sorted(leq, s)
    ensures |InsertSorted(leq, x, s)| == |s| + 1
    ensures forall y :: y in InsertSorted(leq, x, s) <==> y == x || y in s
    ensures Sorted(leq, InsertSorted(leq, x, s))
    ensures x !in s && Distinct(s) ==> Distinct(InsertSorted(leq, x, s))
  {
    if s == [] || leq(x, s[0]) {
      assert forall i :: 0 <= i < |s| ==> leq(x, s[i]);
    } else {
      InsertSortedCorrect(leq, x, s[1..]);
      assert s == [s[0]] + s[1..];
      if Distinct(s) {
        assert s[0] !in s[1..];
      }
      var rest := InsertSorted(leq, x, s[1..]);
      forall i | 0 <= i < |rest| ensures leq(s[0], rest[i]) {
        assert rest[i] in rest;
      }
    }
  }

  lemma {:induction false} SortCorrect<T(!new)>(leq: (T, T) -> bool, s: seq<T>)
    requires TotalPreorder(leq)
    ensures |Sort(leq, s)| == |s| && SameMembers(Sort(leq, s), s)
    ensures Sorted(leq, Sort(leq, s))
    ensures Distinct(s) ==> Distinct(Sort(leq, s))
  {
    if s != [] {
      SortCorrect(leq, s[1..]);
      InsertSortedCorrect(leq, s[0], Sort(leq, s[1..]));
      assert s == [s[0]] + s[1..];
    }
  }

  /** A sorted arrangement is unique when the order separates the elements. */
  lemma {:induction false} SortedUnique<T(!new)>(leq: (T, T) -> bool, s: seq<T>, t: seq<T>)
    requires Sorted(leq, s) && Sorted(leq, t)
    requires Distinct(s) && Distinct(t) && SameMembers(s, t)
    requires forall x, y :: x in s && y in s && leq(x, y) && leq(y, x) ==> x == y
    ensures s == t
  {
    DistinctLength(s, t);
    DistinctLength(t, s);
    if s != [] {
      assert s[0] in t && t[0] in s;
      assert s[0] == t[0];
      assert s == [s[0]] + s[1..] && t == [t[0]] + t[1..];
      assert s[0] !in s[1..] && t[0] !in t[1..];
      forall x ensures x in s[1..] <==> x in t[1..] {
        assert x in s <==> x == s[0] || x in s[1..];
        assert x in t <==> x == t[0] || x in t[1..];
      }
      SortedUnique(leq, s[1..], t[1..]);
    }
  }

  /** Sorting forgets the order in which distinct elements arrived. */
  lemma {:induction false} SortPermutation<T(!new)>(leq: (T, T) -> bool, s: seq<T>, t: seq<T>)
    requires TotalPreorder(leq)
    requires Distinct(s) && Distinct(t) && SameMembers(s, t)
    requires forall x, y :: x in s && y in s && leq(x, y) && leq(y, x) ==> x == y
    ensures Sort(leq, s) == Sort(leq, t)
  {
    SortCorrect(leq, s);
    SortCorrect(leq, t);
    SortedUnique(leq, Sort(leq, s), Sort(leq, t));
  }

  lemma {:induction false} SortHead<T(!new)>(leq: (T, T) -> bool, s: seq<T>)
    requires TotalPreorder(leq) && s != []
    ensures Sort(leq, s) != [] && Sort(leq, s)[0] in s
    ensures forall x :: x in s ==> leq(Sort(leq, s)[0], x)
  {
    SortCorrect(leq, s);
    assert leq(Sort(leq, s)[0], Sort(leq, s)[0]);
  }

  /** Python's `sorted(tuple(keys))` over the keys of a dictionary. */
  method SortKeys<T(==, !new)>(leq: (T, T) -> bool, keys: set<T>) returns (order: seq<T>)
    requires TotalPreorder(leq)
    ensures Sorted(leq, order) && Distinct(order)
    ensures forall k :: k in order <==> k in keys
  {
    order := [];
    var todo := keys;
    while todo != {}
      invariant todo <= keys
      invariant Sorted(leq, order) && Distinct(order)
      invariant forall k :: k in order <==> k in keys && k !in todo
      decreases |todo|
    {
      var k :| k in todo;
      InsertSortedCorrect(leq, k, order);
      order := InsertSorted(leq, k, order);
      todo := todo - {k};
    }
  }

  /** Every finite set has a sorted listing. */
  lemma {:induction false} SortedListing<T(!new)>(leq: (T, T) -> bool, keys: set<T>) returns (order: seq<T>)
    requires TotalPreorder(leq)
    ensures Sorted(leq, order) && Distinct(order)
    ensures forall k :: k in order <==> k in keys
    decreases |keys|
  {
    if keys == {} {
      order := [];
    } else {
      var k :| k in keys;
      var rest := SortedListing(leq, keys - {k});
      InsertSortedCorrect(leq, k, rest);
      order := InsertSorted(leq, k, rest);
    }
  }
}
