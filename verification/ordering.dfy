/** Stable sorting in descending order of a real-valued key: the behaviour of
    Python's `list.sort(key=..., reverse=True)`. A document-store
    `sort({field: -1})` promises no order among equal keys; the model picks
    one admissible order for it, that of insertion. */
module Ordering {
  import opened Common

  predicate SortedDesc<T>(s: seq<T>, key: T -> real) {
    forall i, j :: 0 <= i < j < |s| ==> key(s[i]) >= key(s[j])
  }

  /** The selector "key equals c", used to state stability. */
  function KeyIs<T>(key: T -> real, c: real): T -> bool {
    y => key(y) == c
  }

  /** Inserts `x` before the first element whose key does not exceed its own. */
  function Insert<T>(x: T, s: seq<T>, key: T -> real): (r: seq<T>)
    ensures |r| == |s| + 1
    ensures multiset(r) == multiset(s) + multiset{x}
  {
    if |s| == 0 then [x]
    else if key(x) >= key(s[0]) then [x] + s
    else
      assert s == [s[0]] + s[1..];
      [s[0]] + Insert(x, s[1..], key)
  }

  lemma {:induction false} InsertSorted<T>(x: T, s: seq<T>, key: T -> real)
    requires SortedDesc(s, key)
    ensures SortedDesc(Insert(x, s, key), key)
  {
    if |s| != 0 && key(x) < key(s[0]) {
      var t := Insert(x, s[1..], key);
      InsertSorted(x, s[1..], key);
      forall j | 0 <= j < |t| ensures key(s[0]) >= key(t[j]) {
        assert t[j] in multiset(t);
        assert t[j] == x || t[j] in multiset(s[1..]);
      }
    }
  }

  function SortDesc<T>(s: seq<T>, key: T -> real): (r: seq<T>)
    ensures |r| == |s|
    ensures multiset(r) == multiset(s)
    ensures SortedDesc(r, key)
  {
    if |s| == 0 then []
    else
      assert s == [s[0]] + s[1..];
      InsertSorted(s[0], SortDesc(s[1..], key), key);
      Insert(s[0], SortDesc(s[1..], key), key)
  }

  lemma {:induction false} InsertStable<T>(x: T, s: seq<T>, key: T -> real, c: real)
    ensures Filter(Insert(x, s, key), KeyIs(key, c))
         == (if key(x) == c then [x] else []) + Filter(s, KeyIs(key, c))
  {
    var p := KeyIs(key, c);
    if |s| == 0 {
    } else if key(x) >= key(s[0]) {
      assert ([x] + s)[1..] == s;
    } else {
      var r := [s[0]] + Insert(x, s[1..], key);
      assert r[1..] == Insert(x, s[1..], key);
      InsertStable(x, s[1..], key, c);
    }
  }

  /** Elements with equal keys keep their original relative order. */
  lemma {:induction false} SortDescStable<T>(s: seq<T>, key: T -> real, c: real)
    ensures Filter(SortDesc(s, key), KeyIs(key, c)) == Filter(s, KeyIs(key, c))
  {
    if |s| != 0 {
      SortDescStable(s[1..], key, c);
      InsertStable(s[0], SortDesc(s[1..], key), key, c);
    }
  }

  /** `find(...).sort({key: -1}).limit(limit)`: the matches by descending
      key, cut to the cursor limit. The store leaves the order among equal
      keys unspecified; the model keeps store order for them, one of the
      orders the store may return, and no caller depends on the choice. */
  function TopDesc<T>(s: seq<T>, key: T -> real, limit: int): (r: seq<T>)
    ensures r <= SortDesc(s, key)
    ensures SortedDesc(r, key)
    ensures forall x | x in r :: x in s
    ensures multiset(r) <= multiset(s)
    ensures limit == 0 ==> |r| == |s|
    ensures limit != 0 ==> |r| == if |s| < Abs(limit) then |s| else Abs(limit)
  {
    var sorted := SortDesc(s, key);
    var r := MongoLimit(sorted, limit);
    PrefixMultiset(r, sorted);
    forall x | x in r ensures x in s {
      assert x in multiset(sorted);
    }
    r
  }

  /** A prefix holds no element more often than the whole sequence. */
  lemma PrefixMultiset<T>(r: seq<T>, s: seq<T>)
    requires r <= s
    ensures multiset(r) <= multiset(s)
    ensures forall x | x in r :: x in s
  {
    assert s == r + s[|r|..];
  }

  /** Whatever the limit cuts off ranks no higher than what it keeps. */
  lemma TopDescKeepsHighest<T>(s: seq<T>, key: T -> real, limit: int, x: T)
    requires x in s
    ensures var r := TopDesc(s, key, limit);
            x in r || (|r| > 0 && key(x) <= key(r[|r| - 1]))
  {
    var sorted := SortDesc(s, key);
    var r := TopDesc(s, key, limit);
    assert x in multiset(sorted);
    var i :| 0 <= i < |sorted| && sorted[i] == x;
    if i < |r| {
      assert r[i] == x;
    } else {
      assert r[|r| - 1] == sorted[|r| - 1];
    }
  }

}
