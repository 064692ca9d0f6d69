// Python's `sorted` on strings: lexicographic order by code point,
// written as an insertion sort.

module Sorting {

  /** `a <= b` for Python strings. */
  predicate LexLe(a: string, b: string)
    decreases |a|
  {
    a == [] || (b != [] && (a[0] < b[0] || (a[0] == b[0] && LexLe(a[1..], b[1..]))))
  }

  lemma {:induction false} LexLeTotal(a: string, b: string)
    ensures LexLe(a, b) || LexLe(b, a)
    decreases |a|
  {
    if a != [] && b != [] && a[0] == b[0] {
      LexLeTotal(a[1..], b[1..]);
    }
  }

  lemma {:induction false} LexLeTrans(a: string, b: string, c: string)
    requires LexLe(a, b) && LexLe(b, c)
    ensures LexLe(a, c)
    decreases |a|
  {
    if a != [] && b != [] && c != [] && a[0] == b[0] && b[0] == c[0] {
      LexLeTrans(a[1..], b[1..], c[1..]);
    }
  }

  predicate Sorted(xs: seq<string>)
  {
    forall i, j :: 0 <= i < j < |xs| ==> LexLe(xs[i], xs[j])
  }

  function Insert(x: string, xs: seq<string>): (r: seq<string>)
    ensures multiset(r) == multiset(xs) + multiset{x}
    ensures |r| == |xs| + 1
  {
    if xs == [] then [x]
    else if LexLe(x, xs[0]) then [x] + xs
    else
      assert xs == [xs[0]] + xs[1..];
      [xs[0]] + Insert(x, xs[1..])
  }

  lemma {:induction false} InsertSorted(x: string, xs: seq<string>)
    requires Sorted(xs)
    ensures Sorted(Insert(x, xs))
    decreases |xs|
  {
    if xs != [] {
      if LexLe(x, xs[0]) {
        var r := [x] + xs;
        forall i, j | 0 <= i < j < |r|
          ensures LexLe(r[i], r[j])
        {
          if i == 0 && j > 1 {
            LexLeTrans(x, xs[0], xs[j - 1]);
          }
        }
      } else {
        LexLeTotal(x, xs[0]);
        InsertSorted(x, xs[1..]);
        var rest := Insert(x, xs[1..]);
        var r := [xs[0]] + rest;
        forall i, j | 0 <= i < j < |r|
          ensures LexLe(r[i], r[j])
        {
          if i == 0 {
            assert rest[j - 1] in multiset(rest);
            assert rest[j - 1] == x || rest[j - 1] in multiset(xs[1..]);
            if rest[j - 1] != x {
              var k :| 0 <= k < |xs[1..]| && xs[1..][k] == rest[j - 1];
              assert xs[k + 1] == rest[j - 1];
            }
          }
        }
      }
    }
  }

  /** `sorted(xs)`. */
  function Sort(xs: seq<string>): (r: seq<string>)
    ensures multiset(r) == multiset(xs)
    ensures |r| == |xs|
  {
    if xs == [] then []
    else
      assert xs == [xs[0]] + xs[1..];
      Insert(xs[0], Sort(xs[1..]))
  }

  /** The result is ordered and holds exactly the same strings, as often. */
  lemma {:induction false} SortIsSortedPermutation(xs: seq<string>)
    ensures Sorted(Sort(xs))
    ensures multiset(Sort(xs)) == multiset(xs)
    decreases |xs|
  {
    if xs != [] {
      SortIsSortedPermutation(xs[1..]);
      InsertSorted(xs[0], Sort(xs[1..]));
    }
  }
}
