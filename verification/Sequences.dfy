/** Sequences without repetition, their element sets and their sizes. */
module Sequences {
  predicate Distinct<T(==)>(s: seq<T>) {
    forall i, j :: 0 <= i < j < |s| ==> s[i] != s[j]
  }

  function Elements<T>(s: seq<T>): set<T> {
    set x | x in s
  }

  lemma LastReplaced<T>(s: seq<T>, x: T, y: T)
    ensures (s + [x])[|s| := y] == s + [y]
  {
  }

  lemma Regrouped<T>(a: seq<T>, b: seq<T>, c: seq<T>)
    ensures (a + b) + c == a + (b + c)
  {
  }

  lemma NoElements<T>(s: seq<T>)
    ensures s == [] <==> Elements(s) == {}
  {
    if s != [] {
      assert s[0] in Elements(s);
    }
  }

  lemma ElementsOfAppend<T>(s: seq<T>, x: T)
    ensures Elements(s + [x]) == Elements(s) + {x}
  {
  }

  lemma DistinctAppend<T>(s: seq<T>, x: T)
    ensures Distinct(s + [x]) <==> Distinct(s) && x !in s
  {
    var t := s + [x];
    if Distinct(t) {
      assert forall i :: 0 <= i < |s| ==> s[i] == t[i] && t[i] != t[|s|];
    }
  }

  /** A sequence has as many elements as positions exactly when nothing repeats. */
  lemma {:induction false} DistinctSize<T>(s: seq<T>)
    ensures |Elements(s)| <= |s|
    ensures |Elements(s)| == |s| <==> Distinct(s)
  {
    if s != [] {
      var front, x := s[..|s| - 1], s[|s| - 1];
      assert s == front + [x];
      DistinctSize(front);
      DistinctAppend(front, x);
      ElementsOfAppend(front, x);
      if x in front {
        assert Elements(s) == Elements(front);
      } else {
        assert x !in Elements(front);
      }
    }
  }

  lemma SubsetOfSameSize<T>(a: set<T>, b: set<T>)
    requires a <= b && |a| == |b|
    ensures a == b
  {
    assert |b - a| == |b| - |a|;
  }

  lemma SubsetSize<T>(a: set<T>, b: set<T>)
    requires a <= b
    ensures |a| <= |b|
  {
    assert b == a + (b - a);
    assert |b| == |a| + |b - a|;
  }

  lemma {:induction false} DistinctByCount<T>(s: seq<T>)
    ensures Distinct(s) <==> forall x :: multiset(s)[x] <= 1
  {
    if s == [] {
    } else {
      var front, x := s[..|s| - 1], s[|s| - 1];
      assert s == front + [x];
      assert multiset(s) == multiset(front) + multiset{x};
      DistinctAppend(front, x);
      DistinctByCount(front);
      if Distinct(front) && x in front {
        assert x in multiset(front) && multiset(s)[x] >= 2;
      }
      if !Distinct(front) {
        var y :| multiset(front)[y] > 1;
        assert multiset(s)[y] > 1;
      }
    }
  }

  /** `Distinct`, said with sizes only. */
  predicate NoRepeat<T(==)>(s: seq<T>) {
    |Elements(s)| == |s|
  }

  lemma NoRepeatAppend<T>(s: seq<T>, x: T)
    ensures NoRepeat(s + [x]) <==> NoRepeat(s) && x !in Elements(s)
    ensures Elements(s + [x]) == Elements(s) + {x}
  {
    DistinctSize(s);
    DistinctSize(s + [x]);
    DistinctAppend(s, x);
    ElementsOfAppend(s, x);
  }

  lemma NoRepeatPrefix<T>(s: seq<T>, t: seq<T>)
    requires s <= t && NoRepeat(t)
    ensures NoRepeat(s)
  {
    DistinctSize(s);
    DistinctSize(t);
  }

  /** Where the parts of a whole stand in it. */
  lemma Slices<T>(a: seq<T>, b: seq<T>, c: seq<T>, n: nat)
    requires n <= |c|
    ensures var all := a + b + c;
      && all[..|a|] == a && all[|a|..|a| + |b|] == b && all[|a| + |b|..|a| + |b| + n] == c[..n] && c[..|c|] == c
  {
  }

  lemma SameParts<T>(a: seq<T>, b: seq<T>, p: seq<T>, q: seq<T>, r: seq<T>)
    requires a + b <= p + q + r && |a| == |p| && |b| == |q|
    ensures a == p && b == q
  {
    var all := p + q + r;
    assert (a + b)[..|a|] == a && (a + b)[|a|..] == b;
    assert all[..|p|] == p && all[|p|..|p| + |q|] == q;
    assert a + b == all[..|a + b|];
  }
}
