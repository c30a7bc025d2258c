/** Collecting a set or a multiset over a sequence. */
module Collections {
  import opened Common

  ghost function UnionOf<T, U>(s: seq<T>, f: T -> set<U>): set<U> {
    if s == [] then {} else UnionOf(s[..|s| - 1], f) + f(s[|s| - 1])
  }

  ghost function SumOf<T, U>(s: seq<T>, f: T -> multiset<U>): multiset<U> {
    if s == [] then multiset{} else SumOf(s[..|s| - 1], f) + f(s[|s| - 1])
  }

  lemma {:induction false} UnionMembers<T, U>(s: seq<T>, f: T -> set<U>, y: U)
    ensures y in UnionOf(s, f) <==> exists x | x in s :: y in f(x)
  {
    if s != [] {
      var n := |s| - 1;
      UnionMembers(s[..n], f, y);
      assert s == s[..n] + [s[n]];
    }
  }

  lemma UnionForgetsOrder<T, U(!new)>(s: seq<T>, t: seq<T>, f: T -> set<U>)
    requires Elements(s) == Elements(t)
    ensures UnionOf(s, f) == UnionOf(t, f)
  {
    assert forall x | x in s :: x in Elements(t);
    assert forall x | x in t :: x in Elements(s);
    forall y ensures y in UnionOf(s, f) <==> y in UnionOf(t, f) {
      UnionMembers(s, f, y);
      UnionMembers(t, f, y);
    }
  }

  lemma {:induction false} UnionIsEmpty<T, U>(s: seq<T>, f: T -> set<U>)
    ensures UnionOf(s, f) == {} <==> forall x | x in s :: f(x) == {}
  {
    if s != [] {
      var n := |s| - 1;
      UnionIsEmpty(s[..n], f);
      assert s == s[..n] + [s[n]];
    }
  }

  lemma {:induction false} SumIsEmpty<T, U>(s: seq<T>, f: T -> multiset<U>)
    ensures SumOf(s, f) == multiset{} <==> forall x | x in s :: f(x) == multiset{}
  {
    if s != [] {
      var n := |s| - 1;
      SumIsEmpty(s[..n], f);
      assert s == s[..n] + [s[n]];
      assert SumOf(s, f) == multiset{} <==> SumOf(s[..n], f) == multiset{} && f(s[n]) == multiset{} by {
        if SumOf(s, f) == multiset{} {
          assert SumOf(s[..n], f) <= SumOf(s, f) && f(s[n]) <= SumOf(s, f);
        }
      }
    }
  }

  lemma {:induction false} SumConcat<T, U>(s: seq<T>, t: seq<T>, f: T -> multiset<U>)
    ensures SumOf(s + t, f) == SumOf(s, f) + SumOf(t, f)
    decreases |t|
  {
    if t == [] {
      assert s + t == s;
    } else {
      var n := |t| - 1;
      SumConcat(s, t[..n], f);
      assert (s + t)[..|s + t| - 1] == s + t[..n];
    }
  }

  /** What is collected does not depend on the order. */
  lemma {:induction false} SumForgetsOrder<T, U>(s: seq<T>, t: seq<T>, f: T -> multiset<U>)
    requires multiset(s) == multiset(t)
    ensures SumOf(s, f) == SumOf(t, f)
    decreases |s|
  {
    if s == [] {
      assert |multiset(s)| == |multiset(t)|;
    } else {
      var n := |s| - 1;
      var x := s[n];
      assert s == s[..n] + [x];
      assert x in multiset(s) && x in multiset(t);
      var k :| 0 <= k < |t| && t[k] == x;
      var rest := t[..k] + t[k + 1..];
      assert t == t[..k] + [x] + t[k + 1..];
      assert multiset(s[..n]) == multiset(s) - multiset{x};
      assert multiset(rest) == multiset(t) - multiset{x};
      SumForgetsOrder(s[..n], rest, f);
      SumConcat(t[..k], t[k + 1..], f);
      SumConcat(t[..k], [x], f);
      SumConcat(t[..k] + [x], t[k + 1..], f);
      assert [x][..0] == [];
      assert SumOf([x], f) == f(x);
    }
  }
}
