/** Sums over the threads of a pool, and how one thread's move changes them. */
module Sums {

  function Sum<T>(f: T -> int, s: seq<T>): int {
    if s == [] then 0 else f(s[0]) + Sum(f, s[1..])
  }

  /** Replacing one element changes the sum by the difference of the two weights. */
  lemma {:induction false} SumUpdate<T>(f: T -> int, s: seq<T>, i: nat, x: T)
    requires i < |s|
    ensures Sum(f, s[i := x]) == Sum(f, s) - f(s[i]) + f(x)
  {
    if i == 0 {
      assert s[i := x][1..] == s[1..];
    } else {
      assert s[i := x][1..] == s[1..][i - 1 := x];
      SumUpdate(f, s[1..], i - 1, x);
    }
  }

  /** A sum of zero-or-one weights lies between zero and the number of elements. */
  lemma {:induction false} SumRange<T>(f: T -> int, s: seq<T>)
    requires forall i :: 0 <= i < |s| ==> 0 <= f(s[i]) <= 1
    ensures 0 <= Sum(f, s) <= |s|
  {
    if s == [] {
    } else {
      assert forall i :: 0 <= i < |s[1..]| ==> s[1..][i] == s[i + 1];
      SumRange(f, s[1..]);
    }
  }

  /** A sum of non-negative weights is at least each of them. */
  lemma {:induction false} SumAtLeast<T>(f: T -> int, s: seq<T>, k: nat)
    requires forall i :: 0 <= i < |s| ==> 0 <= f(s[i])
    requires k < |s|
    ensures f(s[k]) <= Sum(f, s)
  {
    assert forall i :: 0 <= i < |s[1..]| ==> s[1..][i] == s[i + 1];
    if k == 0 {
      SumNonNegative(f, s[1..]);
    } else {
      SumAtLeast(f, s[1..], k - 1);
    }
  }

  lemma {:induction false} SumNonNegative<T>(f: T -> int, s: seq<T>)
    requires forall i :: 0 <= i < |s| ==> 0 <= f(s[i])
    ensures 0 <= Sum(f, s)
  {
    if s == [] {
    } else {
      assert forall i :: 0 <= i < |s[1..]| ==> s[1..][i] == s[i + 1];
      SumNonNegative(f, s[1..]);
    }
  }

  /** Weights that are zero everywhere add up to zero. */
  lemma {:induction false} SumZero<T>(f: T -> int, s: seq<T>)
    requires forall i :: 0 <= i < |s| ==> f(s[i]) == 0
    ensures Sum(f, s) == 0
  {
    if s == [] {
    } else {
      assert forall i :: 0 <= i < |s[1..]| ==> s[1..][i] == s[i + 1];
      SumZero(f, s[1..]);
    }
  }

  /** Pointwise smaller weights have a smaller sum. */
  lemma {:induction false} SumMonotone<T>(f: T -> int, g: T -> int, s: seq<T>)
    requires forall i :: 0 <= i < |s| ==> f(s[i]) <= g(s[i])
    ensures Sum(f, s) <= Sum(g, s)
  {
    if s == [] {
    } else {
      assert forall i :: 0 <= i < |s[1..]| ==> s[1..][i] == s[i + 1];
      SumMonotone(f, g, s[1..]);
    }
  }
}
