/** Sequences of any kind, and bytes. */
module Sequences {
  type Byte = b: int | 0 <= b < 256

  lemma Associate<T>(a: seq<T>, b: seq<T>, c: seq<T>)
    ensures (a + b) + c == a + (b + c)
  {
  }

  /** What comes next is moved from what is left to what is there. */
  lemma Shift<T>(done: seq<T>, next: seq<T>, later: seq<T>, rest: seq<T>)
    ensures done + ((next + later) + rest) == (done + next) + (later + rest)
  {
  }

  lemma Split<T>(a: seq<T>, b: seq<T>)
    ensures (a + b)[..|a|] == a && (a + b)[|a|..] == b
  {
  }

  function Elements<T(==)>(s: seq<T>): set<T> {
    set x | x in s
  }

  predicate AllDifferent<T(==)>(s: seq<T>) {
    forall i, j :: 0 <= i < j < |s| ==> s[i] != s[j]
  }

  lemma ElementsAppend<T>(s: seq<T>, x: T)
    ensures Elements(s + [x]) == Elements(s) + {x}
    ensures AllDifferent(s + [x]) <==> AllDifferent(s) && x !in s
  {
    var t := s + [x];
    assert t[|s|] == x && forall i :: 0 <= i < |s| ==> t[i] == s[i];
    if AllDifferent(s) && x !in s {
      forall i, j | 0 <= i < j < |t| ensures t[i] != t[j] {
      }
    }
  }

  /** A set built from a list is as long as the list exactly when nothing repeats. */
  lemma {:induction false} SetSize<T>(s: seq<T>)
    ensures |Elements(s)| <= |s|
    ensures |Elements(s)| == |s| <==> AllDifferent(s)
  {
    if s == [] {
      assert Elements(s) == {};
    } else {
      var front, last := s[..|s| - 1], s[|s| - 1];
      assert s == front + [last];
      SetSize(front);
      ElementsAppend(front, last);
      AddedSize(Elements(front), last);
    }
  }

  lemma AddedSize<T>(a: set<T>, x: T)
    ensures |a + {x}| == if x in a then |a| else |a| + 1
  {
    if x in a {
      assert a + {x} == a;
    }
  }

  /** The numbers below `n`. */
  function Indices(n: nat): (s: set<nat>)
    ensures |s| == n && forall k :: k in s <==> 0 <= k < n
  {
    if n == 0 then {} else Indices(n - 1) + {n - 1}
  }

  lemma SubsetOfSameSize(a: set<nat>, b: set<nat>)
    requires a <= b && |a| >= |b|
    ensures a == b
  {
    assert b == a + (b - a);
    assert |b| == |a| + |b - a|;
  }

  /** A set has no more elements than one that contains it. */
  lemma SubsetIsSmaller<T>(a: set<T>, b: set<T>)
    requires a <= b
    ensures |a| <= |b|
  {
    assert b == a + (b - a);
  }

  function Least(a: nat, b: nat): nat {
    if a <= b then a else b
  }

  predicate StartsWith<T(==)>(s: seq<T>, prefix: seq<T>) {
    |prefix| <= |s| && s[..|prefix|] == prefix
  }
}
