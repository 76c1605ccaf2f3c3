/**
  Weighted sums over a sequence: every count the invariants need ("threads that are parked",
  "processes that hold a token", "slots that are empty") is a sum of weights.
*/
module Sums {
  function Sum<T>(s: seq<T>, w: T -> int): int {
    if s == [] then 0 else w(s[0]) + Sum(s[1..], w)
  }

  /** Changing one element changes the sum by the difference of the two weights. */
  lemma {:induction false} SumUpdate<T>(s: seq<T>, i: nat, x: T, w: T -> int)
    requires i < |s|
    ensures Sum(s[i := x], w) == Sum(s, w) - w(s[i]) + w(x)
  {
    if i == 0 {
      assert s[0 := x][1..] == s[1..];
    } else {
      assert s[i := x][1..] == s[1..][i - 1 := x];
      SumUpdate(s[1..], i - 1, x, w);
    }
  }

  lemma {:induction false} SumConcat<T>(a: seq<T>, b: seq<T>, w: T -> int)
    ensures Sum(a + b, w) == Sum(a, w) + Sum(b, w)
  {
    if a == [] {
      assert a + b == b;
    } else {
      assert (a + b)[1..] == a[1..] + b;
      SumConcat(a[1..], b, w);
    }
  }

  /** A sum of weights that are at least lo is at least lo for each element. */
  lemma {:induction false} SumBounds<T>(s: seq<T>, w: T -> int, lo: int, hi: int)
    requires forall i :: 0 <= i < |s| ==> lo <= w(s[i]) <= hi
    ensures lo * |s| <= Sum(s, w) <= hi * |s|
  {
    if s == [] {
    } else {
      assert forall i :: 0 <= i < |s[1..]| ==> s[1..][i] == s[i + 1];
      SumBounds(s[1..], w, lo, hi);
    }
  }

  /** With weights that are never negative, each weight is at most the sum. */
  lemma {:induction false} SumAtLeast<T>(s: seq<T>, w: T -> int, i: nat)
    requires i < |s|
    requires forall j :: 0 <= j < |s| ==> 0 <= w(s[j])
    ensures w(s[i]) <= Sum(s, w)
  {
    assert forall j :: 0 <= j < |s[1..]| ==> s[1..][j] == s[j + 1];
    SumBounds(s[1..], w, 0, MaxWeight(s[1..], w));
    if i > 0 {
      SumAtLeast(s[1..], w, i - 1);
    }
  }

  function MaxWeight<T>(s: seq<T>, w: T -> int): (m: int)
    ensures forall i :: 0 <= i < |s| ==> w(s[i]) <= m
  {
    if s == [] then 0
    else
      var m := MaxWeight(s[1..], w);
      assert forall i :: 1 <= i < |s| ==> s[i] == s[1..][i - 1];
      if w(s[0]) > m then w(s[0]) else m
  }

  lemma SumNonneg<T>(s: seq<T>, w: T -> int)
    requires forall j :: 0 <= j < |s| ==> 0 <= w(s[j])
    ensures 0 <= Sum(s, w)
  {
    SumBounds(s, w, 0, MaxWeight(s, w));
  }

  /** Two weightings that agree on every element have the same sum. */
  lemma {:induction false} SumEqual<T>(s: seq<T>, v: T -> int, w: T -> int)
    requires forall i :: 0 <= i < |s| ==> v(s[i]) == w(s[i])
    ensures Sum(s, v) == Sum(s, w)
  {
    if s != [] {
      assert forall i :: 0 <= i < |s[1..]| ==> s[1..][i] == s[i + 1];
      SumEqual(s[1..], v, w);
    }
  }
}
