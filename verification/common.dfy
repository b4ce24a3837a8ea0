/** Small shared vocabulary: optional values, results, and the sequence
    operations the reducers and queries are built from. */
module Common {

  datatype Option<+T> = None | Some(value: T) {
    /** The value, or `default` when absent (JavaScript `x ?? d`, Python `x or d` on lists). */
    function GetOr(default: T): T {
      match this
      case Some(v) => v
      case None => default
    }
  }

  datatype Result<+R, +E> = Success(value: R) | Failure(error: E)

  /** The elements of `s` that satisfy `p`, in their original order. */
  function Filter<T>(s: seq<T>, p: T -> bool): (r: seq<T>)
    ensures |r| <= |s|
    ensures forall x | x in r :: x in s && p(x)
    ensures forall x | x in s && p(x) :: x in r
    ensures forall i :: 0 <= i < |r| ==> p(r[i])
  {
    if |s| == 0 then []
    else if p(s[0]) then [s[0]] + Filter(s[1..], p)
    else Filter(s[1..], p)
  }

  lemma FilterAppend<T>(a: seq<T>, b: seq<T>, p: T -> bool)
    ensures Filter(a + b, p) == Filter(a, p) + Filter(b, p)
  {
    if |a| == 0 {
      assert a + b == b;
    } else {
      assert (a + b)[1..] == a[1..] + b;
      FilterAppend(a[1..], b, p);
    }
  }

  /** `holds` relates the two sequences position by position. */
  predicate Pairwise<A, B>(holds: (A, B) -> bool, xs: seq<A>, ys: seq<B>) {
    |xs| == |ys| && forall k :: 0 <= k < |xs| ==> holds(xs[k], ys[k])
  }

  /** Putting a related pair in front keeps the sequences related. */
  lemma PairwiseCons<A, B>(holds: (A, B) -> bool, x: A, y: B, xs: seq<A>, ys: seq<B>)
    requires Pairwise(holds, xs, ys) && holds(x, y)
    ensures Pairwise(holds, [x] + xs, [y] + ys)
  {
    forall k | 0 < k < |xs| + 1 ensures holds(([x] + xs)[k], ([y] + ys)[k]) {
      assert ([x] + xs)[k] == xs[k - 1] && ([y] + ys)[k] == ys[k - 1];
    }
  }

  /** Number of elements of `s` that satisfy `p`. */
  function Count<T>(s: seq<T>, p: T -> bool): (n: nat)
    ensures n <= |s|
  {
    |Filter(s, p)|
  }

  /** The first `n` elements of `s`, or all of them when there are fewer. */
  function Take<T>(s: seq<T>, n: nat): (r: seq<T>)
    ensures |r| == if n < |s| then n else |s|
    ensures r <= s
  {
    if n < |s| then s[..n] else s
  }

  /** JavaScript `s.slice(0, end)`: a negative end counts back from the
      end of the sequence. */
  function SliceTo<T>(s: seq<T>, end: int): (r: seq<T>)
    ensures r <= s
    ensures end >= 0 ==> |r| == Min(end, |s|)
    ensures end < 0 ==> |r| == Max(0, |s| + end)
  {
    if end >= 0 then Take(s, end) else Take(s, Max(0, |s| + end))
  }

  /** The cursor limit of a document-store query: zero means no limit and a
      negative limit returns as many documents as its absolute value. */
  function MongoLimit<T>(s: seq<T>, limit: int): (r: seq<T>)
    ensures r <= s
    ensures limit == 0 ==> r == s
    ensures limit != 0 ==> |r| == if |s| < Abs(limit) then |s| else Abs(limit)
  {
    if limit == 0 then s else Take(s, Abs(limit))
  }

  function Abs(x: int): nat {
    if x < 0 then -x else x
  }

  function Max(a: int, b: int): int {
    if a < b then b else a
  }

  function Min(a: int, b: int): int {
    if a < b then a else b
  }

  /** Index of the first element satisfying `p` (JavaScript `findIndex`); None stands for -1. */
  function FindIndex<T>(s: seq<T>, p: T -> bool): (r: Option<nat>)
    ensures r.Some? ==> r.value < |s| && p(s[r.value])
                        && forall j :: 0 <= j < r.value ==> !p(s[j])
    ensures r.None? ==> forall j :: 0 <= j < |s| ==> !p(s[j])
  {
    if |s| == 0 then None
    else if p(s[0]) then Some(0)
    else match FindIndex(s[1..], p)
         case None => None
         case Some(k) => Some(k + 1)
  }

  /** Replaces the first element satisfying `p` by `x`; unchanged when none does. */
  function ReplaceFirst<T>(s: seq<T>, p: T -> bool, x: T): (r: seq<T>)
    ensures |r| == |s|
  {
    match FindIndex(s, p)
    case None => s
    case Some(k) => s[k := x]
  }

  lemma ReplaceFirstSpec<T>(s: seq<T>, p: T -> bool, x: T)
    ensures (forall j :: 0 <= j < |s| ==> !p(s[j])) ==> ReplaceFirst(s, p, x) == s
    ensures forall k :: 0 <= k < |s| && p(s[k]) && (forall j :: 0 <= j < k ==> !p(s[j])) ==>
              ReplaceFirst(s, p, x) == s[k := x]
  {
    match FindIndex(s, p)
    case None =>
    case Some(k) =>
  }

  /** Values as the JavaScript reducers see them, enough to decide truthiness. */
  datatype JsValue = Undefined | Null | Bool(b: bool) | Num(n: real) | Str(s: string) | Obj(ref: nat)

  /** JavaScript truthiness (NaN is not representable here). */
  predicate Truthy(v: JsValue) {
    match v
    case Undefined => false
    case Null => false
    case Bool(b) => b
    case Num(n) => n != 0.0
    case Str(s) => s != ""
    case Obj(_) => true
  }
}
