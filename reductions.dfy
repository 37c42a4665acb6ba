/** The reductions numpy applies along the frame axis of a stack, stated on
    the sequence of values one pixel takes across the frames. Each is defined
    from the back, so that a loop over frames 0, 1, ... extends a prefix by
    one element. */
module Reductions {

  /** np.sum of a 1-D sequence (0 for an empty one). */
  function Sum(s: seq<int>): int
  {
    if |s| == 0 then 0 else Sum(s[..|s| - 1]) + s[|s| - 1]
  }

  /** np.max of a non-empty 1-D sequence. */
  function Max(s: seq<int>): int
    requires |s| > 0
  {
    if |s| == 1 then s[0]
    else
      var m := Max(s[..|s| - 1]);
      if s[|s| - 1] > m then s[|s| - 1] else m
  }

  /** np.min of a non-empty 1-D sequence. */
  function Min(s: seq<int>): int
    requires |s| > 0
  {
    if |s| == 1 then s[0]
    else
      var m := Min(s[..|s| - 1]);
      if s[|s| - 1] < m then s[|s| - 1] else m
  }

  /** Extending a sequence by one element adds that element to the sum. */
  lemma SumSnoc(s: seq<int>, x: int)
    ensures Sum(s + [x]) == Sum(s) + x
  {
  }

  /** The sum of `n` copies of `v` is `n * v`: the reduction adds, it does
      not average. */
  lemma {:induction false} SumOfConstant(s: seq<int>, v: int)
    requires forall i :: 0 <= i < |s| ==> s[i] == v
    ensures Sum(s) == |s| * v
  {
    if |s| > 0 {
      SumOfConstant(s[..|s| - 1], v);
    }
  }

  /** Max is an element of the sequence and no element exceeds it. */
  lemma {:induction false} MaxIsMaximum(s: seq<int>)
    requires |s| > 0
    ensures Max(s) in s
    ensures forall i :: 0 <= i < |s| ==> s[i] <= Max(s)
  {
    if |s| > 1 {
      var p := s[..|s| - 1];
      MaxIsMaximum(p);
      assert forall i :: 0 <= i < |p| ==> s[i] == p[i];
    }
  }

  /** Min is an element of the sequence and no element is below it. */
  lemma {:induction false} MinIsMinimum(s: seq<int>)
    requires |s| > 0
    ensures Min(s) in s
    ensures forall i :: 0 <= i < |s| ==> Min(s) <= s[i]
  {
    if |s| > 1 {
      var p := s[..|s| - 1];
      MinIsMinimum(p);
      assert forall i :: 0 <= i < |p| ==> s[i] == p[i];
    }
  }

  /** The spread Max - Min is never negative, and it is zero exactly when
      every element equals the first. */
  lemma RangeZeroIffConstant(s: seq<int>)
    requires |s| > 0
    ensures Max(s) - Min(s) >= 0
    ensures Max(s) - Min(s) == 0 <==> forall i :: 0 <= i < |s| ==> s[i] == s[0]
  {
  }
}
