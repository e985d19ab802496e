/** The array helpers the server's expressions are built from: `find`/`findIndex`,
    `filter`, and the stable newest-first `sort` on `created_at`. */
module Seqs {
  import opened Base

  /** Index of the first element satisfying `p`, as `findIndex` returns it
      (None for -1). */
  function FirstIndex<T>(s: seq<T>, p: T -> bool): (r: Option<nat>)
    ensures r.Some? ==> r.value < |s| && p(s[r.value])
    ensures r.Some? ==> forall j :: 0 <= j < r.value ==> !p(s[j])
    ensures r.None? ==> forall j :: 0 <= j < |s| ==> !p(s[j])
  {
    if |s| == 0 then None
    else if p(s[0]) then Some(0)
    else match FirstIndex(s[1..], p)
      case None => None
      case Some(k) => Some(k + 1)
  }

  /** `Array.prototype.filter`: the elements satisfying `p`, in their order. */
  function Filter<T>(s: seq<T>, p: T -> bool): (r: seq<T>)
    ensures |r| <= |s|
    ensures forall i :: 0 <= i < |r| ==> p(r[i]) && r[i] in s
    ensures forall i :: 0 <= i < |s| && p(s[i]) ==> s[i] in r
  {
    if |s| == 0 then [] else (if p(s[0]) then [s[0]] else []) + Filter(s[1..], p)
  }

  /** Filtering distributes over concatenation. */
  lemma {:induction false} FilterAppend<T>(a: seq<T>, b: seq<T>, p: T -> bool)
    ensures Filter(a + b, p) == Filter(a, p) + Filter(b, p)
  {
    if |a| == 0 {
      assert a + b == b;
    } else {
      assert (a + b)[1..] == a[1..] + b;
      FilterAppend(a[1..], b, p);
    }
  }

  /** Nothing passes a filter that rejects every element. */
  lemma {:induction false} FilterNone<T>(s: seq<T>, p: T -> bool)
    requires forall i :: 0 <= i < |s| ==> !p(s[i])
    ensures Filter(s, p) == []
  {
    if |s| > 0 {
      FilterNone(s[1..], p);
    }
  }

  /** Replacing an element that `p` rejects by another that `p` rejects
      leaves the filtered sequence as it was. */
  lemma FilterUpdateRejected<T>(s: seq<T>, i: nat, y: T, p: T -> bool)
    requires i < |s| && !p(s[i]) && !p(y)
    ensures Filter(s[i := y], p) == Filter(s, p)
  {
    var t := s[i := y];
    assert s == s[..i] + [s[i]] + s[i + 1..];
    assert t == s[..i] + [y] + s[i + 1..];
    FilterAppend(s[..i] + [s[i]], s[i + 1..], p);
    FilterAppend(s[..i], [s[i]], p);
    FilterAppend(s[..i] + [y], s[i + 1..], p);
    FilterAppend(s[..i], [y], p);
  }

  /** Ordered by descending key: what `sort((a, b) => key(b) - key(a))` yields. */
  ghost predicate NewestFirst<T>(s: seq<T>, key: T -> nat)
  {
    forall i, j :: 0 <= i < j < |s| ==> key(s[j]) <= key(s[i])
  }

  /** Places `x` in front of the first element whose key is not greater than
      its own, so that `x` precedes every element of equal key. */
  function InsertNewest<T>(x: T, s: seq<T>, key: T -> nat): (r: seq<T>)
    ensures |r| == |s| + 1
    ensures multiset(r) == multiset(s) + multiset{x}
    ensures r[0] == x || (|s| > 0 && r[0] == s[0])
  {
    if |s| == 0 || key(s[0]) <= key(x) then [x] + s
    else
      assert s == [s[0]] + s[1..];
      [s[0]] + InsertNewest(x, s[1..], key)
  }

  lemma {:induction false} InsertKeepsNewestFirst<T>(x: T, s: seq<T>, key: T -> nat)
    requires NewestFirst(s, key)
    ensures NewestFirst(InsertNewest(x, s, key), key)
  {
    if |s| == 0 || key(s[0]) <= key(x) {
    } else {
      var tail := InsertNewest(x, s[1..], key);
      InsertKeepsNewestFirst(x, s[1..], key);
      var r := [s[0]] + tail;
      assert key(tail[0]) <= key(s[0]);
      forall i, j | 0 <= i < j < |r| ensures key(r[j]) <= key(r[i]) {
        if i == 0 {
          if j > 1 {
            assert key(tail[j - 1]) <= key(tail[0]);
          }
        } else {
          assert r[i] == tail[i - 1] && r[j] == tail[j - 1];
        }
      }
    }
  }

  /** A stable sort on descending key (insertion sort from the back): rows of
      equal key keep the order they have in `s`. */
  function SortNewestFirst<T>(s: seq<T>, key: T -> nat): (r: seq<T>)
    ensures multiset(r) == multiset(s)
    ensures |r| == |s|
    ensures NewestFirst(r, key)
  {
    if |s| == 0 then []
    else
      var rest := SortNewestFirst(s[1..], key);
      InsertKeepsNewestFirst(s[0], rest, key);
      assert s == [s[0]] + s[1..];
      InsertNewest(s[0], rest, key)
  }

  /** Index of the element with the greatest key, the earliest one among ties. */
  function LatestIndex<T>(s: seq<T>, key: T -> nat): (k: nat)
    requires |s| > 0
    ensures k < |s|
    ensures forall j :: 0 <= j < |s| ==> key(s[j]) <= key(s[k])
    ensures forall j :: 0 <= j < k ==> key(s[j]) < key(s[k])
  {
    if |s| == 1 then 0
    else
      var k := 1 + LatestIndex(s[1..], key);
      if key(s[k]) <= key(s[0]) then 0 else k
  }

  /** The head of the stable sort is the element with the greatest key, and
      among elements with that key the one that came first. */
  lemma {:induction false} SortHeadIsLatest<T>(s: seq<T>, key: T -> nat)
    requires |s| > 0
    ensures SortNewestFirst(s, key)[0] == s[LatestIndex(s, key)]
  {
    if |s| > 1 {
      SortHeadIsLatest(s[1..], key);
    }
  }
}
