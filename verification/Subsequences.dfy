/** Sequences with some elements left out. */
module Subsequences {
  /** a is b with some elements left out. */
  predicate IsSubsequence<T(==)>(a: seq<T>, b: seq<T>) {
    || a == []
    || (b != [] && a[|a| - 1] == b[|b| - 1] && IsSubsequence(a[..|a| - 1], b[..|b| - 1]))
    || (b != [] && IsSubsequence(a, b[..|b| - 1]))
  }

  lemma SubsequenceSnoc<T>(a: seq<T>, b: seq<T>, x: T)
    requires IsSubsequence(a, b)
    ensures IsSubsequence(a + [x], b + [x]) && IsSubsequence(a, b + [x])
  {
    assert (a + [x])[..|a|] == a && (b + [x])[..|b|] == b;
  }

  lemma {:induction false} PrefixOfSubsequence<T>(a: seq<T>, b: seq<T>, c: seq<T>)
    requires a <= b && IsSubsequence(b, c)
    ensures IsSubsequence(a, c)
    decreases |c|
  {
    if a != b {
      var shorter := c[..|c| - 1];
      if IsSubsequence(b, shorter) {
        PrefixOfSubsequence(a, b, shorter);
      } else {
        PrefixOfSubsequence(a, b[..|b| - 1], shorter);
      }
    }
  }

  lemma {:induction false} SubsequenceOfPrefix<T>(a: seq<T>, b: seq<T>, c: seq<T>)
    requires IsSubsequence(a, b) && b <= c
    ensures IsSubsequence(a, c)
    decreases |c|
  {
    if |b| < |c| {
      SubsequenceOfPrefix(a, b, c[..|c| - 1]);
    } else {
      assert b == c;
    }
  }

  /** Strictly increasing positions below n. */
  ghost predicate Positions(positions: seq<nat>, n: nat) {
    && (forall i :: 0 <= i < |positions| ==> positions[i] < n)
    && (forall i, j :: 0 <= i < j < |positions| ==> positions[i] < positions[j])
  }

  lemma {:induction false} SubsequencePositions<T>(a: seq<T>, b: seq<T>) returns (positions: seq<nat>)
    requires IsSubsequence(a, b)
    ensures |positions| == |a| && Positions(positions, |b|)
    ensures forall i :: 0 <= i < |a| ==> a[i] == b[positions[i]]
    decreases |b|
  {
    if a == [] {
      positions := [];
    } else if IsSubsequence(a, b[..|b| - 1]) {
      positions := SubsequencePositions(a, b[..|b| - 1]);
    } else {
      positions := SubsequencePositions(a[..|a| - 1], b[..|b| - 1]);
      positions := positions + [|b| - 1];
    }
  }
}
