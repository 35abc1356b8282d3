/**
 * Choosing the winner among the attempts that were ready at one wake-up:
 * the smallest duration, and among equal smallest durations the one met first.
 */
module Selection {

  /** `j` is the position of the first minimum of `d`. */
  predicate IsFirstMinimum(d: seq<int>, j: int)
  {
    && 0 <= j < |d|
    && (forall k :: 0 <= k < |d| ==> d[j] <= d[k])
    && (forall k :: 0 <= k < j ==> d[k] > d[j])
  }

  /** Left-to-right scan that keeps a candidate and replaces it only on a strictly smaller value. */
  function FirstMinIndex(d: seq<int>): (j: nat)
    requires |d| > 0
    ensures j < |d|
  {
    if |d| == 1 then 0
    else
      var j := FirstMinIndex(d[..|d| - 1]);
      if d[|d| - 1] < d[j] then |d| - 1 else j
  }

  lemma {:induction false} FirstMinIndexIsFirstMinimum(d: seq<int>)
    requires |d| > 0
    ensures IsFirstMinimum(d, FirstMinIndex(d))
  {
    if |d| > 1 {
      var init := d[..|d| - 1];
      FirstMinIndexIsFirstMinimum(init);
      assert forall k :: 0 <= k < |init| ==> d[k] == init[k];
    }
  }

  /** Extending the scanned prefix by one element: the candidate changes only on a strictly smaller value. */
  lemma FirstMinIndexStep(d: seq<int>, k: nat)
    requires 0 < k < |d|
    ensures FirstMinIndex(d[..k + 1]) ==
              if d[k] < d[FirstMinIndex(d[..k])] then k else FirstMinIndex(d[..k])
  {
    assert d[..k + 1][..k] == d[..k];
  }

  /** The first minimum is unique, so any scan with that outcome picks the same position. */
  lemma FirstMinimumIsUnique(d: seq<int>, i: int, j: int)
    requires IsFirstMinimum(d, i) && IsFirstMinimum(d, j)
    ensures i == j
  {
    assert d[i] == d[j];
  }

  /** The elements of `s` at the positions `idx`, in that order. */
  function Pick<T>(s: seq<T>, idx: seq<nat>): (r: seq<T>)
    requires InRange(idx, |s|)
    ensures |r| == |idx|
    ensures forall k :: 0 <= k < |idx| ==> r[k] == s[idx[k]]
  {
    seq(|idx|, k requires 0 <= k < |idx| => s[idx[k]])
  }

  /** Every position in `idx` is below `n`. */
  predicate InRange(idx: seq<nat>, n: nat)
  {
    forall k :: 0 <= k < |idx| ==> idx[k] < n
  }
}
