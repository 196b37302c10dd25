/** Boolean token masks. */
module Masks {
  /** `mask.sum()` */
  function Count(mask: seq<bool>): (n: nat)
    ensures n <= |mask|
  {
    if mask == [] then 0 else Count(mask[..|mask| - 1]) + if mask[|mask| - 1] then 1 else 0
  }

  /** The mask after `mask[start:end] = True`. */
  function Marked(m: seq<bool>, start: nat, end: nat): (r: seq<bool>)
    ensures |r| == |m|
  {
    seq(|m|, p requires 0 <= p < |m| => m[p] || start <= p < end)
  }

  /** Marking tokens that were not marked adds as many. */
  lemma {:induction false} CountMarked(m: seq<bool>, start: nat, end: nat)
    requires start <= end <= |m| && forall p :: start <= p < end ==> !m[p]
    ensures Count(Marked(m, start, end)) == Count(m) + (end - start)
  {
    if m != [] {
      var n := |m| - 1;
      if end == |m| && start < end {
        assert Marked(m, start, end)[..n] == Marked(m[..n], start, end - 1);
        CountMarked(m[..n], start, end - 1);
      } else if end <= n {
        assert Marked(m, start, end)[..n] == Marked(m[..n], start, end);
        CountMarked(m[..n], start, end);
      } else {
        assert Marked(m, start, end) == m;
      }
    }
  }

  lemma {:induction false} CountNone(n: nat)
    ensures Count(seq(n, p => false)) == 0
  {
    if n > 0 {
      assert seq(n, p => false)[..n - 1] == seq(n - 1, p => false);
      CountNone(n - 1);
    }
  }
}
