/** The library's sort.Strings and sort.Slice by a string key. */
module Sorting {

  /** The order on strings. */
  predicate Less(a: string, b: string) {
    if b == "" then false
    else if a == "" then true
    else a[0] < b[0] || (a[0] == b[0] && Less(a[1..], b[1..]))
  }

  lemma {:induction false} LessTotal(a: string, b: string)
    ensures Less(a, b) || a == b || Less(b, a)
    ensures !(Less(a, b) && Less(b, a))
  {
    if a != "" && b != "" {
      LessTotal(a[1..], b[1..]);
      assert a == [a[0]] + a[1..] && b == [b[0]] + b[1..];
    }
  }

  /** The first character in which two strings differ decides; a proper prefix comes first. */
  lemma {:induction false} LessExactly(a: string, b: string)
    ensures Less(a, b) <==> a < b || exists i :: 0 <= i < |a| && i < |b| && a[..i] == b[..i] && a[i] < b[i]
  {
    if a != "" && b != "" {
      LessExactly(a[1..], b[1..]);
      assert a == [a[0]] + a[1..] && b == [b[0]] + b[1..];
      if i :| 0 <= i < |a| && i < |b| && a[..i] == b[..i] && a[i] < b[i] {
        LessTail(a, b, i);
      }
      if a[0] == b[0] {
        if i :| 0 <= i < |a[1..]| && i < |b[1..]| && a[1..][..i] == b[1..][..i] && a[1..][i] < b[1..][i] {
          assert a[..i + 1] == [a[0]] + a[1..][..i] && b[..i + 1] == [b[0]] + b[1..][..i];
        }
      } else if a[0] < b[0] {
        assert a[..0] == b[..0];
      }
    }
  }

  lemma LessTail(a: string, b: string, i: nat)
    requires i < |a| && i < |b| && a[..i] == b[..i] && a[i] < b[i]
    ensures a[0] < b[0] || (a[0] == b[0] && i > 0 && a[1..][..i - 1] == b[1..][..i - 1] && a[1..][i - 1] < b[1..][i - 1])
  {
    if i > 0 {
      assert a[..i][0] == b[..i][0];
      assert a[1..][..i - 1] == a[..i][1..] && b[1..][..i - 1] == b[..i][1..];
    }
  }

  lemma {:induction false} LessTransitive(a: string, b: string, c: string)
    requires Less(a, b) && Less(b, c)
    ensures Less(a, c)
  {
    if a != "" && b != "" && c != "" && a[0] == b[0] == c[0] {
      LessTransitive(a[1..], b[1..], c[1..]);
    }
  }

  /** Strictly increasing keys. */
  ghost predicate Increasing<T>(xs: seq<T>, key: T -> string) {
    forall i, j :: 0 <= i < j < |xs| ==> Less(key(xs[i]), key(xs[j]))
  }

  ghost predicate DistinctKeys<T>(xs: seq<T>, key: T -> string) {
    forall i, j :: 0 <= i < j < |xs| ==> key(xs[i]) != key(xs[j])
  }

  function Insert<T>(xs: seq<T>, x: T, key: T -> string): seq<T> {
    if xs == [] || Less(key(x), key(xs[0])) then [x] + xs else [xs[0]] + Insert(xs[1..], x, key)
  }

  function Sort<T>(xs: seq<T>, key: T -> string): seq<T> {
    if xs == [] then [] else Insert(Sort(xs[1..], key), xs[0], key)
  }

  lemma {:induction false} InsertKeeps<T>(xs: seq<T>, x: T, key: T -> string)
    ensures multiset(Insert(xs, x, key)) == multiset(xs) + multiset{x}
  {
    if xs != [] && !Less(key(x), key(xs[0])) {
      InsertKeeps(xs[1..], x, key);
      assert xs == [xs[0]] + xs[1..];
    }
  }

  lemma {:induction false} InsertSorts<T>(xs: seq<T>, x: T, key: T -> string)
    requires Increasing(xs, key) && forall y :: y in xs ==> key(y) != key(x)
    ensures Increasing(Insert(xs, x, key), key)
  {
    var ys := Insert(xs, x, key);
    InsertKeeps(xs, x, key);
    if xs == [] {
    } else if Less(key(x), key(xs[0])) {
      forall j | 0 < j < |xs| { LessTransitive(key(x), key(xs[0]), key(xs[j])); }
    } else {
      LessTotal(key(x), key(xs[0]));
      InsertSorts(xs[1..], x, key);
      InsertKeeps(xs[1..], x, key);
      forall j | 0 < j < |ys| ensures Less(key(ys[0]), key(ys[j])) {
        assert ys[j] in multiset(Insert(xs[1..], x, key));
        assert ys[j] in xs[1..] || ys[j] == x;
      }
    }
  }

  /** The same elements, once each, in increasing order of their keys. */
  lemma {:induction false} SortSorts<T>(xs: seq<T>, key: T -> string)
    requires DistinctKeys(xs, key)
    ensures multiset(Sort(xs, key)) == multiset(xs) && |Sort(xs, key)| == |xs|
    ensures Increasing(Sort(xs, key), key)
  {
    if xs != [] {
      var rest := Sort(xs[1..], key);
      SortSorts(xs[1..], key);
      InsertKeeps(rest, xs[0], key);
      FirstAndRest(xs);
      FirstApart(xs, rest, key);
      InsertSorts(rest, xs[0], key);
      SameSize(Sort(xs, key), xs);
    }
  }

  lemma SameSize<T>(xs: seq<T>, ys: seq<T>)
    requires multiset(xs) == multiset(ys)
    ensures |xs| == |ys|
  {
    assert |multiset(xs)| == |xs| && |multiset(ys)| == |ys|;
  }

  lemma FirstAndRest<T>(xs: seq<T>)
    requires xs != []
    ensures multiset(xs) == multiset(xs[1..]) + multiset{xs[0]}
  {
    assert xs == [xs[0]] + xs[1..];
  }

  lemma FirstApart<T>(xs: seq<T>, rest: seq<T>, key: T -> string)
    requires xs != [] && DistinctKeys(xs, key) && multiset(rest) == multiset(xs[1..])
    ensures forall y :: y in rest ==> key(y) != key(xs[0])
  {
    forall y | y in rest ensures key(y) != key(xs[0]) {
      assert y in multiset(rest);
      assert y in xs[1..];
    }
  }
}
