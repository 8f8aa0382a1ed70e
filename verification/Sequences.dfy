/** Sequences as doubly linked lists: removal and replacement of a node, and reversal. */
module Sequences {
  predicate NoDup<T(==)>(s: seq<T>) { forall i, j | 0 <= i < j < |s| :: s[i] != s[j] }

  predicate Differ<T(==)>(s: seq<T>, i: int, j: int)
    requires 0 <= i < |s| && 0 <= j < |s|
  {
    s[i] != s[j]
  }

  /** `NoDup`, for contexts with many indices: it is used only through the lemma below. */
  predicate Distinct<T(==)>(s: seq<T>) { forall i, j {:trigger Differ(s, i, j)} | 0 <= i < j < |s| :: Differ(s, i, j) }

  lemma DistinctIsNoDup<T>(s: seq<T>)
    ensures Distinct(s) <==> NoDup(s)
  {
    if Distinct(s) {
      forall i, j | 0 <= i < j < |s| ensures s[i] != s[j] { assert Differ(s, i, j); }
    }
  }

  lemma DistinctFront<T>(s: seq<T>, x: T)
    requires Distinct(s) && x !in s
    ensures Distinct([x] + s)
  {
    DistinctIsNoDup(s);
    DistinctIsNoDup([x] + s);
  }

  lemma DistinctBack<T>(s: seq<T>, x: T)
    requires Distinct(s) && x !in s
    ensures Distinct(s + [x])
  {
    DistinctIsNoDup(s);
    DistinctIsNoDup(s + [x]);
  }

  lemma DistinctPop<T>(s: seq<T>)
    requires Distinct(s) && s != []
    ensures var r, x := s[..|s| - 1], s[|s| - 1]; Distinct(r) && x !in r && forall y :: y in s <==> y in r || y == x
  {
    DistinctIsNoDup(s);
    var r, x := s[..|s| - 1], s[|s| - 1];
    assert s == r + [x];
    DistinctIsNoDup(r);
  }

  lemma DistinctWithout<T>(s: seq<T>, x: T)
    requires Distinct(s)
    ensures Distinct(Without(s, x)) && forall y :: y in Without(s, x) <==> y in s && y != x
  {
    DistinctIsNoDup(s);
    WithoutMembers(s, x);
    DistinctIsNoDup(Without(s, x));
  }

  lemma DistinctReplaced<T>(s: seq<T>, x: T, y: T)
    requires Distinct(s) && y !in s
    ensures Distinct(Replaced(s, x, y))
    ensures forall z :: z in Replaced(s, x, y) <==> (z in s && z != x) || (z == y && x in s)
  {
    DistinctIsNoDup(s);
    ReplacedMembers(s, x, y);
    DistinctIsNoDup(Replaced(s, x, y));
  }

  /** The list without its first `x`. */
  function Without<T(==)>(s: seq<T>, x: T): (r: seq<T>)
    ensures x !in s ==> r == s
    ensures x in s ==> |r| == |s| - 1
  {
    if s == [] then [] else if s[0] == x then s[1..] else [s[0]] + Without(s[1..], x)
  }

  lemma {:induction false} WithoutAt<T>(s: seq<T>, i: nat)
    requires NoDup(s) && i < |s|
    ensures Without(s, s[i]) == s[..i] + s[i + 1..]
  {
    if i > 0 {
      WithoutAt(s[1..], i - 1);
      assert s == [s[0]] + s[1..];
    }
  }

  lemma {:induction false} WithoutConcat<T>(a: seq<T>, b: seq<T>, x: T)
    ensures Without(a + b, x) == if x in a then Without(a, x) + b else a + Without(b, x)
  {
    if a == [] {
      assert a + b == b;
    } else {
      assert (a + b)[1..] == a[1..] + b;
      if a[0] != x { WithoutConcat(a[1..], b, x); }
    }
  }

  lemma {:induction false} WithoutMembers<T>(s: seq<T>, x: T)
    requires NoDup(s)
    ensures NoDup(Without(s, x))
    ensures forall y :: y in Without(s, x) <==> y in s && y != x
  {
    if x in s {
      var i :| 0 <= i < |s| && s[i] == x;
      WithoutAt(s, i);
      forall y | y in s && y != x ensures y in Without(s, x) {
        var k :| 0 <= k < |s| && s[k] == y;
        if k < i { assert s[..i][k] == y; } else { assert s[i + 1..][k - i - 1] == y; }
      }
    }
  }

  /** The list with `y` at the place of `x`. */
  function Replaced<T(==)>(s: seq<T>, x: T, y: T): (r: seq<T>)
    ensures |r| == |s| && forall i | 0 <= i < |s| :: r[i] == if s[i] == x then y else s[i]
    ensures x !in s ==> r == s
  {
    seq(|s|, i requires 0 <= i < |s| => if s[i] == x then y else s[i])
  }

  lemma ReplacedConcat<T>(a: seq<T>, b: seq<T>, x: T, y: T)
    ensures Replaced(a + b, x, y) == Replaced(a, x, y) + Replaced(b, x, y)
  {}

  lemma ReplacedMembers<T>(s: seq<T>, x: T, y: T)
    requires NoDup(s) && y !in s
    ensures NoDup(Replaced(s, x, y))
    ensures forall z :: z in Replaced(s, x, y) <==> (z in s && z != x) || (z == y && x in s)
  {
    forall z | z in s && z != x ensures z in Replaced(s, x, y) {
      var k :| 0 <= k < |s| && s[k] == z;
      assert Replaced(s, x, y)[k] == z;
    }
    if x in s {
      var k :| 0 <= k < |s| && s[k] == x;
      assert Replaced(s, x, y)[k] == y;
    }
  }

  function Reverse<T>(s: seq<T>): (r: seq<T>)
    ensures |r| == |s| && forall i | 0 <= i < |s| :: r[i] == s[|s| - 1 - i]
  {
    seq(|s|, i requires 0 <= i < |s| => s[|s| - 1 - i])
  }

  lemma ReverseConcat<T>(a: seq<T>, b: seq<T>)
    ensures Reverse(a + b) == Reverse(b) + Reverse(a)
  {}
}
