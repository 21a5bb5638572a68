/** Sorting native identifiers, so that the inspection order never depends on how a hash map iterates. */
module Ordering {
  import opened Sequences

  /** Lexicographic order by character, which is the order of the UTF-8 bytes. */
  predicate Below(a: string, b: string) {
    b != "" && (a == "" || a[0] < b[0] || (a[0] == b[0] && Below(a[1..], b[1..])))
  }

  lemma {:induction false} BelowTransitive(a: string, b: string, c: string)
    requires Below(a, b) && Below(b, c)
    ensures Below(a, c)
  {
    if a != "" && a[0] == b[0] && b[0] == c[0] {
      BelowTransitive(a[1..], b[1..], c[1..]);
    }
  }

  lemma {:induction false} BelowTotal(a: string, b: string)
    ensures Below(a, b) || a == b || Below(b, a)
    ensures !(Below(a, b) && Below(b, a))
    ensures !Below(a, a)
  {
    if a != "" {
      BelowTotal(a[1..], a[1..]);
      if b != "" && a[0] == b[0] {
        BelowTotal(a[1..], b[1..]);
        assert a == [a[0]] + a[1..] && b == [b[0]] + b[1..];
      }
    }
  }

  /** Each element below all that follow it. */
  predicate Ascending(s: seq<string>) {
    s == [] || ((forall x :: x in s[1..] ==> Below(s[0], x)) && Ascending(s[1..]))
  }

  function Insert(s: seq<string>, x: string): seq<string> {
    if s == [] || Below(x, s[0]) then [x] + s else [s[0]] + Insert(s[1..], x)
  }

  lemma {:induction false} InsertAscends(s: seq<string>, x: string)
    requires Ascending(s) && x !in s
    ensures Ascending(Insert(s, x)) && Elements(Insert(s, x)) == Elements(s) + {x}
  {
    if s != [] {
      BelowTotal(x, s[0]);
      if Below(x, s[0]) {
        var t := [x] + s;
        assert t[1..] == s;
        forall y | y in s ensures Below(x, y) {
          if y != s[0] {
            assert y in s[1..];
            BelowTransitive(x, s[0], y);
          }
        }
      } else {
        InsertAscends(s[1..], x);
        var t := Insert(s, x);
        assert t[1..] == Insert(s[1..], x);
        assert forall y :: y in t[1..] ==> y in Elements(s[1..]) + {x};
        assert Elements(s) == Elements(s[1..]) + {s[0]};
        assert Elements(t) == Elements(t[1..]) + {s[0]};
      }
    }
  }

  /** Sorting has one answer: ascending sequences with the same elements are the same sequence. */
  lemma {:induction false} AscendingUnique(s: seq<string>, t: seq<string>)
    requires Ascending(s) && Ascending(t) && Elements(s) == Elements(t)
    ensures s == t
  {
    NoElements(s);
    NoElements(t);
    if s != [] {
      assert s[0] in Elements(t);
      assert t[0] in Elements(s);
      if s[0] != t[0] {
        assert s[0] in t[1..] && t[0] in s[1..];
        BelowTotal(s[0], t[0]);
      }
      NotInTail(s);
      NotInTail(t);
      assert Elements(s[1..]) == Elements(s) - {s[0]} && Elements(t[1..]) == Elements(t) - {t[0]};
      AscendingUnique(s[1..], t[1..]);
      assert s == [s[0]] + s[1..] && t == [t[0]] + t[1..];
    }
  }

  lemma NotInTail(s: seq<string>)
    requires Ascending(s) && s != []
    ensures s[0] !in s[1..]
  {
    BelowTotal(s[0], s[0]);
  }

  lemma {:induction false} AscendingDistinct(s: seq<string>)
    requires Ascending(s)
    ensures Distinct(s)
  {
    if s != [] {
      AscendingDistinct(s[1..]);
      NotInTail(s);
      forall i, j | 0 <= i < j < |s| ensures s[i] != s[j] {
        if i > 0 {
          assert s[i] == s[1..][i - 1] && s[j] == s[1..][j - 1];
        } else {
          assert s[j] == s[1..][j - 1];
        }
      }
    }
  }

  /** Whatever order the set hands out its elements in, the result is the one ascending sequence of them. */
  method Sorted(ids: set<string>) returns (s: seq<string>)
    ensures Ascending(s) && Elements(s) == ids
  {
    s := [];
    var todo := ids;
    while todo != {}
      invariant todo <= ids && Ascending(s) && Elements(s) == ids - todo
      decreases todo
    {
      var id :| id in todo;
      assert id !in Elements(s);
      InsertAscends(s, id);
      s, todo := Insert(s, id), todo - {id};
    }
  }
}
