/** Sorting a slice by a total preorder, with any order among equal elements. */
module Sorting {
  ghost predicate TotalPreorder<T(!new)>(leq: (T, T) -> bool) {
    && (forall x, y :: leq(x, y) || leq(y, x))
    && (forall x, y, z :: leq(x, y) && leq(y, z) ==> leq(x, z))
  }

  ghost predicate Sorted<T(!new)>(s: seq<T>, leq: (T, T) -> bool) {
    forall i, j | 0 <= i < j < |s| :: leq(s[i], s[j])
  }

  lemma SplitMultiset<T>(s: seq<T>, i: nat)
    requires i <= |s|
    ensures multiset(s) == multiset(s[..i]) + multiset(s[i..])
  {
    assert s == s[..i] + s[i..];
  }

  lemma {:induction false} InsertKeepsSorted<T(!new)>(s: seq<T>, x: T, j: nat, leq: (T, T) -> bool)
    requires TotalPreorder(leq) && Sorted(s, leq) && j <= |s|
    requires forall n | 0 <= n < j :: leq(s[n], x)
    requires j < |s| ==> leq(x, s[j])
    ensures Sorted(s[..j] + [x] + s[j..], leq)
    ensures multiset(s[..j] + [x] + s[j..]) == multiset(s) + multiset{x}
  {
    SplitMultiset(s, j);
    var t := s[..j] + [x] + s[j..];
    forall a, b | 0 <= a < b < |t|
      ensures leq(t[a], t[b])
    {
      assert t[a] == if a < j then s[a] else if a == j then x else s[a - 1];
      assert t[b] == if b < j then s[b] else if b == j then x else s[b - 1];
    }
  }

  /** sort.Slice, as an insertion sort. */
  method Sort<T(!new)>(s: seq<T>, leq: (T, T) -> bool) returns (t: seq<T>)
    requires TotalPreorder(leq)
    ensures Sorted(t, leq) && multiset(t) == multiset(s)
  {
    t := [];
    for i := 0 to |s|
      invariant Sorted(t, leq) && multiset(t) == multiset(s[..i])
    {
      var j := 0;
      while j < |t| && leq(t[j], s[i])
        invariant 0 <= j <= |t| && forall n | 0 <= n < j :: leq(t[n], s[i])
      {
        j := j + 1;
      }
      InsertKeepsSorted(t, s[i], j, leq);
      assert s[..i + 1] == s[..i] + [s[i]];
      t := t[..j] + [s[i]] + t[j..];
    }
    assert s[..|s|] == s;
  }
}
