/** Sorting numbers in descending order, repetitions kept, and what does not depend on
    the order of a list. */
module DescendingOrder {

  ghost predicate Descending(s: seq<real>) {
    forall i, j | 0 <= i < j < |s| :: s[i] >= s[j]
  }

  function Insert(x: real, s: seq<real>): seq<real> {
    if s == [] || x >= s[0] then [x] + s else [s[0]] + Insert(x, s[1..])
  }

  function Sort(s: seq<real>): seq<real> {
    if s == [] then [] else Insert(s[0], Sort(s[1..]))
  }

  lemma {:induction false} InsertKeeps(x: real, s: seq<real>)
    ensures multiset(Insert(x, s)) == multiset(s) + multiset{x}
  {
    if s == [] || x >= s[0] {
    } else {
      InsertKeeps(x, s[1..]);
      assert s == [s[0]] + s[1..];
    }
  }

  /** Every element of the list is at most its first. */
  lemma HeadIsGreatest(s: seq<real>, x: real)
    requires Descending(s) && x in multiset(s)
    ensures s != [] && x <= s[0]
  {
    var k :| 0 <= k < |s| && s[k] == x;
  }

  lemma PrependDescending(x: real, s: seq<real>)
    requires Descending(s) && (s != [] ==> x >= s[0])
    ensures Descending([x] + s)
  {
  }

  lemma {:induction false} InsertSorts(x: real, s: seq<real>)
    requires Descending(s)
    ensures Descending(Insert(x, s)) && Insert(x, s) != [] && Insert(x, s)[0] == if s == [] || x >= s[0] then x else s[0]
  {
    if s == [] || x >= s[0] {
      PrependDescending(x, s);
    } else {
      InsertSorts(x, s[1..]);
      PrependDescending(s[0], Insert(x, s[1..]));
    }
  }

  lemma {:induction false} SortSorts(s: seq<real>)
    ensures Descending(Sort(s)) && multiset(Sort(s)) == multiset(s) && |Sort(s)| == |s|
  {
    if s != [] {
      SortSorts(s[1..]);
      InsertSorts(s[0], Sort(s[1..]));
      InsertKeeps(s[0], Sort(s[1..]));
      assert s == [s[0]] + s[1..];
    }
    assert |multiset(Sort(s))| == |multiset(s)|;
  }

  lemma DropHead(s: seq<real>)
    requires s != []
    ensures multiset(s[1..]) == multiset(s) - multiset{s[0]} && s[0] in multiset(s)
  {
    assert s == [s[0]] + s[1..];
  }

  lemma SameBagSize(a: seq<real>, b: seq<real>)
    requires multiset(a) == multiset(b)
    ensures |a| == |b|
  {
    assert |multiset(a)| == |a| && |multiset(b)| == |b|;
  }

  lemma SameHeadAndTail(a: seq<real>, b: seq<real>)
    requires Descending(a) && Descending(b) && multiset(a) == multiset(b) && a != [] && b != []
    ensures a[0] == b[0] && multiset(a[1..]) == multiset(b[1..])
  {
    DropHead(a);
    DropHead(b);
    HeadIsGreatest(b, a[0]);
    HeadIsGreatest(a, b[0]);
  }

  lemma TailDescending(a: seq<real>)
    requires Descending(a) && a != []
    ensures Descending(a[1..])
  {
  }

  /** A multiset has one descending listing. */
  lemma {:induction false} DescendingIsUnique(a: seq<real>, b: seq<real>)
    requires Descending(a) && Descending(b) && multiset(a) == multiset(b)
    ensures a == b
  {
    SameBagSize(a, b);
    if a != [] {
      SameHeadAndTail(a, b);
      TailDescending(a);
      TailDescending(b);
      DescendingIsUnique(a[1..], b[1..]);
      assert a == [a[0]] + a[1..];
      assert b == [b[0]] + b[1..];
    }
  }

  lemma SortForgetsOrder(a: seq<real>, b: seq<real>)
    requires multiset(a) == multiset(b)
    ensures Sort(a) == Sort(b)
  {
    SortSorts(a);
    SortSorts(b);
    DescendingIsUnique(Sort(a), Sort(b));
  }

  // ---------- Sums ----------

  function Sum(s: seq<real>): real {
    if s == [] then 0.0 else s[0] + Sum(s[1..])
  }

  lemma {:induction false} SumInsert(x: real, s: seq<real>)
    ensures Sum(Insert(x, s)) == x + Sum(s)
  {
    if s == [] || x >= s[0] {
      assert ([x] + s)[1..] == s;
    } else {
      SumInsert(x, s[1..]);
      assert ([s[0]] + Insert(x, s[1..]))[1..] == Insert(x, s[1..]);
    }
  }

  lemma {:induction false} SumSort(s: seq<real>)
    ensures Sum(Sort(s)) == Sum(s)
  {
    if s != [] {
      SumSort(s[1..]);
      SumInsert(s[0], Sort(s[1..]));
    }
  }

  lemma SumForgetsOrder(a: seq<real>, b: seq<real>)
    requires multiset(a) == multiset(b)
    ensures Sum(a) == Sum(b)
  {
    SortForgetsOrder(a, b);
    SumSort(a);
    SumSort(b);
  }

  lemma {:induction false} SumAppend(a: seq<real>, x: real)
    ensures Sum(a + [x]) == Sum(a) + x
  {
    if a == [] {
      assert [] + [x] == [x];
    } else {
      SumAppend(a[1..], x);
      assert (a + [x])[1..] == a[1..] + [x];
    }
  }

  /** A longer prefix of non-negative numbers has a larger sum. */
  lemma {:induction false} PrefixSum(s: seq<real>, k: nat, n: nat)
    requires k <= n <= |s| && forall x | x in s :: x >= 0.0
    ensures 0.0 <= Sum(s[..k]) <= Sum(s[..n])
    decreases n
  {
    if n > 0 {
      assert s[..n] == s[..n - 1] + [s[n - 1]];
      SumAppend(s[..n - 1], s[n - 1]);
      assert s[n - 1] in s;
      PrefixSum(s, if k < n then k else n - 1, n - 1);
    }
  }
}
