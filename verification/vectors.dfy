/** Facts about vectors of reals: 0/1 entries, one-hot groups and sums. */
module Vectors {

  predicate IsBit(x: real) {
    x == 0.0 || x == 1.0
  }

  /** A condition as a feature value: 1 when it holds, 0 when it does not. */
  function Flag(b: bool): real {
    if b then 1.0 else 0.0
  }

  /** `g` holds 1 at position `k` and 0 everywhere else. */
  predicate OneAt(g: seq<real>, k: int) {
    && 0 <= k < |g|
    && forall j :: 0 <= j < |g| ==> g[j] == (if j == k then 1.0 else 0.0)
  }

  /** `g` is a one-hot group: exactly one entry is 1, every other entry is 0. */
  ghost predicate IsOneHot(g: seq<real>) {
    exists k :: OneAt(g, k)
  }

  /** A group holds its single 1 in one place only. */
  lemma OneAtUnique(g: seq<real>, j: int, k: int)
    requires OneAt(g, j) && OneAt(g, k)
    ensures j == k
  {
    assert g[k] == 1.0;
  }

  function Sum(s: seq<real>): real {
    if s == [] then 0.0 else s[0] + Sum(s[1..])
  }

  /** The sum of a concatenation is the sum of its parts. */
  lemma {:induction false} SumConcat(a: seq<real>, b: seq<real>)
    ensures Sum(a + b) == Sum(a) + Sum(b)
  {
    if a == [] {
      assert a + b == b;
    } else {
      assert (a + b)[1..] == a[1..] + b;
      SumConcat(a[1..], b);
    }
  }

  /** A vector of zeros sums to 0. */
  lemma {:induction false} SumZeros(s: seq<real>)
    requires forall j :: 0 <= j < |s| ==> s[j] == 0.0
    ensures Sum(s) == 0.0
  {
    if s != [] {
      SumZeros(s[1..]);
    }
  }

  /** A one-hot group sums to exactly 1. */
  lemma {:induction false} OneHotSum(g: seq<real>, k: int)
    requires OneAt(g, k)
    ensures Sum(g) == 1.0
  {
    if k == 0 {
      SumZeros(g[1..]);
    } else {
      OneHotSum(g[1..], k - 1);
    }
  }

}
