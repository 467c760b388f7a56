/** The three query shapes the endpoints ask of the storage layer:
    `.filter(p)`, `.filter(p).first()` and `.order_by(key.desc())`. */
module Query {
  import opened Wrappers

  /** Index of the first element satisfying `p`, the row `.filter(p).first()` yields. */
  function First<T>(s: seq<T>, p: T -> bool): (r: Option<nat>)
    ensures r.Some? ==> r.value < |s| && p(s[r.value])
    ensures r.Some? ==> forall j :: 0 <= j < r.value ==> !p(s[j])
    ensures r.None? <==> forall j :: 0 <= j < |s| ==> !p(s[j])
  {
    if s == [] then None
    else if p(s[0]) then Some(0)
    else match First(s[1..], p)
      case None => None
      case Some(i) => Some(i + 1)
  }

  /** The elements satisfying `p`, in store order. */
  function Filter<T(!new)>(s: seq<T>, p: T -> bool): (r: seq<T>)
    ensures |r| <= |s|
    ensures forall x :: x in r <==> x in s && p(x)
    ensures forall x :: multiset(r)[x] == if p(x) then multiset(s)[x] else 0
  {
    if s == [] then []
    else
      var rest := Filter(s[1..], p);
      assert s == [s[0]] + s[1..];
      assert multiset(s) == multiset{s[0]} + multiset(s[1..]);
      if p(s[0]) then
        assert multiset([s[0]] + rest) == multiset{s[0]} + multiset(rest);
        [s[0]] + rest
      else rest
  }

  /** The number of elements satisfying `p`, what `.filter(p).count()` yields. */
  function Count<T>(s: seq<T>, p: T -> bool): (r: nat)
    ensures r <= |s|
    ensures r == 0 <==> forall j :: 0 <= j < |s| ==> !p(s[j])
  {
    if s == [] then 0
    else (if p(s[0]) then 1 else 0) + Count(s[1..], p)
  }

  /** Count is exact: it is the number of positions whose element satisfies `p`,
      counted from position `lo` on. */
  lemma {:induction false} CountFromIsNumberOfMatches<T>(s: seq<T>, p: T -> bool, lo: nat)
    requires lo <= |s|
    ensures Count(s[lo..], p) == |set j | lo <= j < |s| && p(s[j])|
    decreases |s| - lo
  {
    var here := set j | lo <= j < |s| && p(s[j]);
    if lo == |s| {
      assert here == {};
    } else {
      CountFromIsNumberOfMatches(s, p, lo + 1);
      var later := set j | lo + 1 <= j < |s| && p(s[j]);
      assert s[lo..][1..] == s[lo + 1..];
      if p(s[lo]) {
        assert here == later + {lo};
      } else {
        assert here == later;
      }
    }
  }

  /** `.count()` is the number of rows satisfying the filter. */
  lemma CountIsNumberOfMatches<T>(s: seq<T>, p: T -> bool)
    ensures Count(s, p) == |set j | 0 <= j < |s| && p(s[j])|
  {
    CountFromIsNumberOfMatches(s, p, 0);
    assert s[0..] == s;
  }

  /** Two sequences with the same multiset have the same members. */
  lemma SameMembers<T(!new)>(a: seq<T>, b: seq<T>)
    requires multiset(a) == multiset(b)
    ensures |a| == |b|
    ensures forall x :: x in a <==> x in b
  {
    assert |multiset(a)| == |multiset(b)|;
    forall x
      ensures x in a <==> x in b
    {
      assert x in a <==> x in multiset(a);
      assert x in b <==> x in multiset(b);
    }
  }

  /** Sorted newest-first: keys never increase from left to right. */
  predicate SortedDesc<T>(s: seq<T>, key: T -> int)
  {
    forall i, j :: 0 <= i < j < |s| ==> key(s[i]) >= key(s[j])
  }

  /** Putting a key no smaller than the head's in front keeps a sequence sorted. */
  lemma ConsSorted<T>(h: T, s: seq<T>, key: T -> int)
    requires SortedDesc(s, key)
    requires s != [] ==> key(s[0]) <= key(h)
    ensures SortedDesc([h] + s, key)
  {
    var r := [h] + s;
    forall i, j | 0 <= i < j < |r|
      ensures key(r[i]) >= key(r[j])
    {
      assert r[j] == s[j - 1];
      if 0 < i {
        assert r[i] == s[i - 1];
      } else if 1 < j {
        assert key(s[0]) >= key(s[j - 1]);
      }
    }
  }

  /** Places `x` before the first element whose key is not larger, so that
      among equal keys the inserted element comes first. */
  function Insert<T>(x: T, s: seq<T>, key: T -> int): (r: seq<T>)
    requires SortedDesc(s, key)
    ensures SortedDesc(r, key)
    ensures multiset(r) == multiset(s) + multiset{x}
    ensures |r| == |s| + 1 && (r[0] == x || (s != [] && r[0] == s[0]))
  {
    if s == [] then [x]
    else if key(x) >= key(s[0]) then
      ConsSorted(x, s, key);
      [x] + s
    else
      var rest := Insert(x, s[1..], key);
      assert s == [s[0]] + s[1..];
      ConsSorted(s[0], rest, key);
      [s[0]] + rest
  }


  /** A stable descending sort: the order `.order_by(key.desc())` returns. */
  function SortDesc<T>(s: seq<T>, key: T -> int): (r: seq<T>)
    ensures SortedDesc(r, key)
    ensures multiset(r) == multiset(s)
  {
    if s == [] then []
    else
      assert s == [s[0]] + s[1..];
      Insert(s[0], SortDesc(s[1..], key), key)
  }
}
