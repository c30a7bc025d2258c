/** Canonical lists: the strictly sorted sequence of a finite set of values, which is
    what Python's sorted gives for values with distinct keys. */
module Sorting {
  import opened Common

  ghost predicate StrictOrder<T(!new)>(lt: (T, T) -> bool) {
    && (forall x :: !lt(x, x))
    && forall x, y, z :: lt(x, y) && lt(y, z) ==> lt(x, z)
  }

  ghost predicate Comparable<T>(s: seq<T>, lt: (T, T) -> bool) {
    forall x, y | x in s && y in s && x != y :: lt(x, y) || lt(y, x)
  }

  predicate Sorted<T>(s: seq<T>, lt: (T, T) -> bool) {
    forall i, j | 0 <= i < j < |s| :: lt(s[i], s[j])
  }

  function Insert<T(==)>(x: T, s: seq<T>, lt: (T, T) -> bool): seq<T> {
    if s == [] || lt(x, s[0]) then [x] + s
    else if x == s[0] then s
    else [s[0]] + Insert(x, s[1..], lt)
  }

  function Sort<T(==)>(s: seq<T>, lt: (T, T) -> bool): seq<T> {
    if s == [] then [] else Insert(s[0], Sort(s[1..], lt), lt)
  }

  lemma {:induction false} InsertElements<T>(x: T, s: seq<T>, lt: (T, T) -> bool)
    ensures Elements(Insert(x, s, lt)) == Elements(s) + {x}
  {
    if s == [] || lt(x, s[0]) || x == s[0] {
    } else {
      InsertElements(x, s[1..], lt);
      ElementsCons(s[0], s[1..]);
      ElementsCons(s[0], Insert(x, s[1..], lt));
      assert s == [s[0]] + s[1..];
    }
  }

  lemma ElementsCons<T>(x: T, s: seq<T>)
    ensures Elements([x] + s) == {x} + Elements(s)
  {
  }

  lemma SortedCons<T>(x: T, s: seq<T>, lt: (T, T) -> bool)
    requires Sorted(s, lt) && forall y | y in Elements(s) :: lt(x, y)
    ensures Sorted([x] + s, lt)
  {
    forall k | 0 <= k < |s| ensures lt(x, s[k]) {
      assert s[k] in Elements(s);
    }
  }

  lemma SortedTail<T>(s: seq<T>, lt: (T, T) -> bool)
    requires Sorted(s, lt) && s != []
    ensures Sorted(s[1..], lt) && forall y | y in Elements(s[1..]) :: lt(s[0], y)
  {
  }

  lemma {:induction false} InsertSorts<T(!new)>(x: T, s: seq<T>, lt: (T, T) -> bool)
    requires StrictOrder(lt) && Sorted(s, lt)
    requires forall y | y in Elements(s) && y != x :: lt(x, y) || lt(y, x)
    ensures Sorted(Insert(x, s, lt), lt)
  {
    if s == [] {
    } else {
      SortedTail(s, lt);
      assert s[0] in Elements(s);
      if lt(x, s[0]) {
        ElementsCons(s[0], s[1..]);
        assert s == [s[0]] + s[1..];
        SortedCons(x, s, lt);
      } else if x != s[0] {
        assert forall y | y in Elements(s[1..]) :: y in Elements(s);
        InsertSorts(x, s[1..], lt);
        InsertElements(x, s[1..], lt);
        SortedCons(s[0], Insert(x, s[1..], lt), lt);
      }
    }
  }

  /** Sorting keeps exactly the values, each once, in strictly increasing order. */
  lemma {:induction false} SortSorts<T(!new)>(s: seq<T>, lt: (T, T) -> bool)
    requires StrictOrder(lt) && Comparable(s, lt)
    ensures Sorted(Sort(s, lt), lt) && Elements(Sort(s, lt)) == Elements(s)
  {
    if s != [] {
      SortSorts(s[1..], lt);
      var tail := Sort(s[1..], lt);
      assert s == [s[0]] + s[1..];
      ElementsCons(s[0], s[1..]);
      forall y | y in Elements(tail) && y != s[0] ensures lt(s[0], y) || lt(y, s[0]) {
        assert y in s && s[0] in s;
      }
      InsertSorts(s[0], tail, lt);
      InsertElements(s[0], tail, lt);
    }
  }

  lemma SortMembers<T(!new)>(s: seq<T>, lt: (T, T) -> bool, x: T)
    requires StrictOrder(lt) && Comparable(s, lt)
    ensures x in Sort(s, lt) <==> x in s
  {
    SortSorts(s, lt);
    assert x in Sort(s, lt) <==> x in Elements(Sort(s, lt));
    assert x in s <==> x in Elements(s);
  }

  /** A set has one strictly sorted listing. */
  lemma {:induction false} SortedIsUnique<T(!new)>(a: seq<T>, b: seq<T>, lt: (T, T) -> bool)
    requires StrictOrder(lt) && Sorted(a, lt) && Sorted(b, lt) && Elements(a) == Elements(b)
    ensures a == b
  {
    NoElements(a);
    NoElements(b);
    if a != [] {
      SameHead(a, b, lt);
      TailElements(a, lt);
      TailElements(b, lt);
      SortedIsUnique(a[1..], b[1..], lt);
      assert a == [a[0]] + a[1..] && b == [b[0]] + b[1..];
    }
  }

  lemma NoElements<T>(s: seq<T>)
    ensures Elements(s) == {} <==> s == []
  {
    assert s != [] ==> s[0] in Elements(s);
  }

  lemma FirstIsLeast<T>(s: seq<T>, lt: (T, T) -> bool, y: T)
    requires Sorted(s, lt) && y in Elements(s)
    ensures s != [] && (y == s[0] || lt(s[0], y))
  {
    var k :| 0 <= k < |s| && s[k] == y;
  }

  lemma SameHead<T(!new)>(a: seq<T>, b: seq<T>, lt: (T, T) -> bool)
    requires StrictOrder(lt) && Sorted(a, lt) && Sorted(b, lt) && Elements(a) == Elements(b) && a != [] && b != []
    ensures a[0] == b[0]
  {
    FirstIsLeast(b, lt, a[0]);
    FirstIsLeast(a, lt, b[0]);
  }

  lemma TailElements<T(!new)>(a: seq<T>, lt: (T, T) -> bool)
    requires StrictOrder(lt) && Sorted(a, lt) && a != []
    ensures Elements(a[1..]) == Elements(a) - {a[0]}
  {
    assert a == [a[0]] + a[1..];
    assert forall y | y in a[1..] :: lt(a[0], y);
  }

  /** Sequences with the same values have the same sorted listing. */
  lemma SortForgetsOrder<T(!new)>(a: seq<T>, b: seq<T>, lt: (T, T) -> bool)
    requires StrictOrder(lt) && Comparable(a, lt) && Elements(a) == Elements(b)
    ensures Sort(a, lt) == Sort(b, lt)
  {
    forall y | y in b ensures y in a {
      assert y in Elements(b);
    }
    SortSorts(a, lt);
    SortSorts(b, lt);
    SortedIsUnique(Sort(a, lt), Sort(b, lt), lt);
  }

  // ---------- Totals ----------

  /** The sum of the weights of all elements. */
  function Total<T>(s: seq<T>, weight: T -> nat): nat {
    if s == [] then 0 else weight(s[0]) + Total(s[1..], weight)
  }

  ghost predicate NoRepeats<T>(s: seq<T>) {
    forall i, j | 0 <= i < j < |s| :: s[i] != s[j]
  }

  lemma {:induction false} TotalInsert<T>(x: T, s: seq<T>, lt: (T, T) -> bool, weight: T -> nat)
    requires x !in s
    ensures Total(Insert(x, s, lt), weight) == Total(s, weight) + weight(x)
  {
    if s == [] || lt(x, s[0]) {
      assert ([x] + s)[1..] == s;
    } else {
      TotalInsert(x, s[1..], lt, weight);
      assert ([s[0]] + Insert(x, s[1..], lt))[1..] == Insert(x, s[1..], lt);
    }
  }

  lemma {:induction false} TotalSort<T(!new)>(s: seq<T>, lt: (T, T) -> bool, weight: T -> nat)
    requires StrictOrder(lt) && Comparable(s, lt) && NoRepeats(s)
    ensures Total(Sort(s, lt), weight) == Total(s, weight)
  {
    if s != [] {
      SortMembers(s[1..], lt, s[0]);
      TotalInsert(s[0], Sort(s[1..], lt), lt, weight);
      TotalSort(s[1..], lt, weight);
    }
  }

  /** A total does not depend on the order. */
  lemma TotalForgetsOrder<T(!new)>(a: seq<T>, b: seq<T>, lt: (T, T) -> bool, weight: T -> nat)
    requires StrictOrder(lt) && Comparable(a, lt) && NoRepeats(a) && NoRepeats(b) && Elements(a) == Elements(b)
    ensures Total(a, weight) == Total(b, weight)
  {
    forall y | y in b ensures y in a {
      assert y in Elements(b);
    }
    SortForgetsOrder(a, b, lt);
    TotalSort(a, lt, weight);
    TotalSort(b, lt, weight);
  }

  lemma {:induction false} TotalOfOnes<T>(s: seq<T>)
    ensures Total(s, (x: T) => 1) == |s|
  {
    if s != [] {
      TotalOfOnes(s[1..]);
    }
  }

  /** Repeat-free sequences with the same values have the same length. */
  lemma LengthForgetsOrder<T(!new)>(a: seq<T>, b: seq<T>, lt: (T, T) -> bool)
    requires StrictOrder(lt) && Comparable(a, lt) && NoRepeats(a) && NoRepeats(b) && Elements(a) == Elements(b)
    ensures |a| == |b|
  {
    TotalForgetsOrder(a, b, lt, x => 1);
    TotalOfOnes(a);
    TotalOfOnes(b);
  }
}
