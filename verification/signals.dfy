/** The positions of a score array that a detector keeps: the shared core of
    the TA-Lib post-processing loops and of the transformer's window scan. */
module Signals {

  /** Indices `i` of `vs` with `keep(vs[i])`, in increasing order. */
  function Hits<T>(vs: seq<T>, keep: T -> bool): (r: seq<nat>)
    ensures |r| <= |vs|
    ensures forall k :: 0 <= k < |r| ==> r[k] < |vs| && keep(vs[r[k]])
    ensures forall k, l :: 0 <= k < l < |r| ==> r[k] < r[l]
    ensures forall i :: 0 <= i < |vs| && keep(vs[i]) ==> i in r
  {
    if |vs| == 0 then []
    else
      var init := Hits(vs[..|vs| - 1], keep);
      var last := |vs| - 1;
      assert forall k :: 0 <= k < |init| ==> init[k] < last && vs[..last][init[k]] == vs[init[k]];
      if keep(vs[last]) then init + [last] else init
  }
}
