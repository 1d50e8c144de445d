/** A stable sort, standing for Go's sort.SliceStable, and what is known of its result. */
module Sorting {

  ghost predicate TotalPreorder<T(!new)>(le: (T, T) -> bool) {
    && (forall x, y :: le(x, y) || le(y, x))
    && (forall x, y, z :: le(x, y) && le(y, z) ==> le(x, z))
  }

  ghost predicate SortedBy<T>(le: (T, T) -> bool, s: seq<T>) {
    forall i, j :: 0 <= i < j < |s| ==> le(s[i], s[j])
  }

  /** Places x behind every element it does not precede. */
  function Insert<T>(le: (T, T) -> bool, s: seq<T>, x: T): (r: seq<T>)
    ensures |r| == |s| + 1
  {
    if s == [] || le(s[|s| - 1], x) then s + [x]
    else Insert(le, s[..|s| - 1], x) + [s[|s| - 1]]
  }

  function Sort<T>(le: (T, T) -> bool, s: seq<T>): (r: seq<T>)
    ensures |r| == |s|
  {
    if s == [] then [] else Insert(le, Sort(le, s[..|s| - 1]), s[|s| - 1])
  }

  lemma {:induction false} InsertPermutes<T>(le: (T, T) -> bool, s: seq<T>, x: T)
    ensures multiset(Insert(le, s, x)) == multiset(s) + multiset{x}
  {
    if s != [] && !le(s[|s| - 1], x) {
      InsertPermutes(le, s[..|s| - 1], x);
      assert s == s[..|s| - 1] + [s[|s| - 1]];
    }
  }

  /** Sorting neither adds, removes nor repeats elements. */
  lemma {:induction false} SortPermutes<T>(le: (T, T) -> bool, s: seq<T>)
    ensures multiset(Sort(le, s)) == multiset(s)
  {
    if s != [] {
      SortPermutes(le, s[..|s| - 1]);
      InsertPermutes(le, Sort(le, s[..|s| - 1]), s[|s| - 1]);
      assert s == s[..|s| - 1] + [s[|s| - 1]];
    }
  }

  lemma {:induction false} InsertMembers<T>(le: (T, T) -> bool, s: seq<T>, x: T)
    ensures forall y :: y in Insert(le, s, x) <==> y in s || y == x
  {
    if s != [] && !le(s[|s| - 1], x) {
      InsertMembers(le, s[..|s| - 1], x);
      assert s == s[..|s| - 1] + [s[|s| - 1]];
    }
  }

  lemma {:induction false} InsertKeepsOrder<T(!new)>(le: (T, T) -> bool, s: seq<T>, x: T)
    requires TotalPreorder(le) && SortedBy(le, s)
    ensures SortedBy(le, Insert(le, s, x))
  {
    if s == [] || le(s[|s| - 1], x) {
      forall i | 0 <= i < |s| ensures le(s[i], x) {
        assert le(s[i], s[|s| - 1]);
      }
    } else {
      var top := s[|s| - 1];
      var front := Insert(le, s[..|s| - 1], x);
      InsertKeepsOrder(le, s[..|s| - 1], x);
      InsertMembers(le, s[..|s| - 1], x);
      forall i | 0 <= i < |front| ensures le(front[i], top) {
        assert front[i] in front;
        if front[i] != x {
          var k :| 0 <= k < |s| - 1 && s[..|s| - 1][k] == front[i];
          assert le(s[k], s[|s| - 1]);
        }
      }
    }
  }

  lemma {:induction false} SortSorts<T(!new)>(le: (T, T) -> bool, s: seq<T>)
    requires TotalPreorder(le)
    ensures SortedBy(le, Sort(le, s))
  {
    if s != [] {
      SortSorts(le, s[..|s| - 1]);
      InsertKeepsOrder(le, Sort(le, s[..|s| - 1]), s[|s| - 1]);
    }
  }

  /** A list already in order is left alone. */
  lemma {:induction false} SortOfSorted<T>(le: (T, T) -> bool, s: seq<T>)
    requires SortedBy(le, s)
    ensures Sort(le, s) == s
  {
    if s != [] {
      SortOfSorted(le, s[..|s| - 1]);
      assert |s| > 1 ==> le(s[|s| - 2], s[|s| - 1]);
    }
  }

  lemma {:induction false} SortMembers<T>(le: (T, T) -> bool, s: seq<T>)
    ensures forall x :: x in Sort(le, s) <==> x in s
  {
    if s != [] {
      SortMembers(le, s[..|s| - 1]);
      InsertMembers(le, Sort(le, s[..|s| - 1]), s[|s| - 1]);
      assert s == s[..|s| - 1] + [s[|s| - 1]];
    }
  }

  function Filter<T>(p: T -> bool, s: seq<T>): (r: seq<T>)
    ensures |r| <= |s|
  {
    if s == [] then []
    else Filter(p, s[..|s| - 1]) + (if p(s[|s| - 1]) then [s[|s| - 1]] else [])
  }

  lemma {:induction false} FilterMembers<T>(p: T -> bool, s: seq<T>)
    ensures forall x :: x in Filter(p, s) <==> x in s && p(x)
  {
    if s != [] {
      FilterMembers(p, s[..|s| - 1]);
      assert s == s[..|s| - 1] + [s[|s| - 1]];
    }
  }

  lemma {:induction false} FilterConcat<T>(p: T -> bool, a: seq<T>, b: seq<T>)
    ensures Filter(p, a + b) == Filter(p, a) + Filter(p, b)
  {
    if b == [] {
      assert a + b == a;
    } else {
      assert (a + b)[..|a + b| - 1] == a + b[..|b| - 1];
      FilterConcat(p, a, b[..|b| - 1]);
    }
  }

  lemma {:induction false} FilterAll<T>(p: T -> bool, s: seq<T>)
    requires forall i :: 0 <= i < |s| ==> p(s[i])
    ensures Filter(p, s) == s
  {
    if s != [] {
      FilterAll(p, s[..|s| - 1]);
      assert s == s[..|s| - 1] + [s[|s| - 1]];
    }
  }

  lemma {:induction false} FilterNone<T>(p: T -> bool, s: seq<T>)
    requires forall i :: 0 <= i < |s| ==> !p(s[i])
    ensures Filter(p, s) == []
  {
    if s != [] {
      FilterNone(p, s[..|s| - 1]);
    }
  }

  /** The order cannot tell the elements of p apart. */
  ghost predicate Alike<T(!new)>(le: (T, T) -> bool, p: T -> bool) {
    forall a, b :: p(a) && p(b) ==> le(a, b)
  }

  lemma FilterOne<T>(p: T -> bool, x: T)
    ensures Filter(p, [x]) == if p(x) then [x] else []
  {
    assert [x][..0] == [];
  }

  lemma FilterLast<T>(p: T -> bool, s: seq<T>)
    requires s != []
    ensures Filter(p, s) == Filter(p, s[..|s| - 1]) + Filter(p, [s[|s| - 1]])
  {
    FilterOne(p, s[|s| - 1]);
  }

  lemma FilterPastOther<T>(p: T -> bool, a: seq<T>, x: T, y: T)
    requires !p(x) || !p(y)
    ensures Filter(p, a) + Filter(p, [x]) + Filter(p, [y]) == Filter(p, a) + Filter(p, [y]) + Filter(p, [x])
  {
    FilterOne(p, x);
    FilterOne(p, y);
  }

  lemma {:induction false} InsertIsStable<T(!new)>(le: (T, T) -> bool, s: seq<T>, x: T, p: T -> bool)
    requires Alike(le, p)
    ensures Filter(p, Insert(le, s, x)) == Filter(p, s) + Filter(p, [x])
  {
    if s == [] || le(s[|s| - 1], x) {
      FilterConcat(p, s, [x]);
    } else {
      var front, top := s[..|s| - 1], s[|s| - 1];
      InsertIsStable(le, front, x, p);
      FilterConcat(p, Insert(le, front, x), [top]);
      FilterPastOther(p, front, x, top);
      FilterLast(p, s);
    }
  }

  lemma SortLast<T>(le: (T, T) -> bool, s: seq<T>)
    requires s != []
    ensures Sort(le, s) == Insert(le, Sort(le, s[..|s| - 1]), s[|s| - 1])
  {
  }

  /** Stability: elements the order cannot tell apart stay in their original order. */
  lemma {:induction false} SortIsStable<T(!new)>(le: (T, T) -> bool, s: seq<T>, p: T -> bool)
    requires Alike(le, p)
    ensures Filter(p, Sort(le, s)) == Filter(p, s)
  {
    if s != [] {
      var front, x := s[..|s| - 1], s[|s| - 1];
      SortIsStable(le, front, p);
      InsertIsStable(le, Sort(le, front), x, p);
      SortLast(le, s);
      FilterLast(p, s);
    }
  }

  // ------------------------------------------------------------------ lists with the same sort

  /** The elements the order cannot tell apart from z. */
  function Tied<T>(le: (T, T) -> bool, z: T): T -> bool { x => le(x, z) && le(z, x) }

  /** Within each class of tied elements, a and b list the same elements in the same order. */
  ghost predicate Equivalent<T(!new)>(le: (T, T) -> bool, a: seq<T>, b: seq<T>) {
    forall z :: Filter(Tied(le, z), a) == Filter(Tied(le, z), b)
  }

  lemma EquivalentConcat<T(!new)>(le: (T, T) -> bool, a: seq<T>, b: seq<T>, c: seq<T>, d: seq<T>)
    requires Equivalent(le, a, b) && Equivalent(le, c, d)
    ensures Equivalent(le, a + c, b + d)
  {
    forall z ensures Filter(Tied(le, z), a + c) == Filter(Tied(le, z), b + d) {
      FilterConcat(Tied(le, z), a, c);
      FilterConcat(Tied(le, z), b, d);
    }
  }

  /** An element may move ahead of those it is not tied with. */
  lemma EquivalentMove<T(!new)>(le: (T, T) -> bool, a: seq<T>, b: seq<T>, x: T)
    requires TotalPreorder(le) && forall y :: y in b ==> !(le(x, y) && le(y, x))
    ensures Equivalent(le, a + b + [x], a + [x] + b)
  {
    forall z ensures Filter(Tied(le, z), a + b + [x]) == Filter(Tied(le, z), a + [x] + b) {
      var p := Tied(le, z);
      FilterConcat(p, a + b, [x]);
      FilterConcat(p, a, b);
      FilterConcat(p, a + [x], b);
      FilterConcat(p, a, [x]);
      if p(x) {
        FilterNone(p, b);
      } else {
        FilterNone(p, [x]);
      }
    }
  }

  lemma LastPrecedes<T(!new)>(le: (T, T) -> bool, a: seq<T>, b: seq<T>)
    requires TotalPreorder(le) && SortedBy(le, b) && Equivalent(le, a, b) && a != []
    ensures b != [] && le(a[|a| - 1], b[|b| - 1])
  {
    var x := a[|a| - 1];
    var p := Tied(le, x);
    FilterMembers(p, a);
    FilterMembers(p, b);
    assert le(x, x) && x in a;
    assert x in Filter(p, a) && x in b;
    var k :| 0 <= k < |b| && b[k] == x;
  }

  /** Sorted lists that agree class by class are the same list. */
  lemma {:induction false} SortedEquivalent<T(!new)>(le: (T, T) -> bool, a: seq<T>, b: seq<T>)
    requires TotalPreorder(le) && SortedBy(le, a) && SortedBy(le, b) && Equivalent(le, a, b)
    ensures a == b
  {
    if a != [] {
      LastPrecedes(le, a, b);
      LastPrecedes(le, b, a);
      LastAgrees(le, a, b);
      SortedEquivalent(le, a[..|a| - 1], b[..|b| - 1]);
      assert a == a[..|a| - 1] + [a[|a| - 1]] && b == b[..|b| - 1] + [b[|b| - 1]];
    } else if b != [] {
      LastPrecedes(le, b, a);
    }
  }

  lemma LastAgrees<T(!new)>(le: (T, T) -> bool, a: seq<T>, b: seq<T>)
    requires TotalPreorder(le) && Equivalent(le, a, b) && a != [] && b != []
    requires Tied(le, a[|a| - 1])(b[|b| - 1])
    ensures a[|a| - 1] == b[|b| - 1] && Equivalent(le, a[..|a| - 1], b[..|b| - 1])
  {
    var x, y := a[|a| - 1], b[|b| - 1];
    var p := Tied(le, x);
    assert p(x) && p(y);
    assert Filter(p, a) == Filter(p, b);
    assert Filter(p, a)[|Filter(p, a)| - 1] == x && Filter(p, b)[|Filter(p, b)| - 1] == y;
    forall z ensures Filter(Tied(le, z), a[..|a| - 1]) == Filter(Tied(le, z), b[..|b| - 1]) {
      var q := Tied(le, z);
      assert Filter(q, a) == Filter(q, b);
      var s, t := Filter(q, a[..|a| - 1]), Filter(q, b[..|b| - 1]);
      if q(x) {
        assert Filter(q, a) == s + [x] && Filter(q, b) == t + [x];
        assert s == (s + [x])[..|s|] && t == (t + [x])[..|t|] && |s + [x]| == |t + [x]|;
      } else {
        assert Filter(q, a) == s + [] == s && Filter(q, b) == t + [] == t;
      }
    }
  }

  /** The stable sort of a list depends only on the order inside its classes. */
  lemma SortEquivalent<T(!new)>(le: (T, T) -> bool, a: seq<T>, b: seq<T>)
    requires TotalPreorder(le) && Equivalent(le, a, b)
    ensures Sort(le, a) == Sort(le, b)
  {
    SortSorts(le, a);
    SortSorts(le, b);
    forall z ensures Filter(Tied(le, z), Sort(le, a)) == Filter(Tied(le, z), Sort(le, b)) {
      assert Alike(le, Tied(le, z));
      SortIsStable(le, a, Tied(le, z));
      SortIsStable(le, b, Tied(le, z));
      assert Filter(Tied(le, z), a) == Filter(Tied(le, z), b);
    }
    SortedEquivalent(le, Sort(le, a), Sort(le, b));
  }
}
