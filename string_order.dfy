/**
 * The default order of `Array.prototype.sort()` on strings: lexicographic
 * comparison character by character, a proper prefix coming first. Sorting
 * is insertion into a sorted sequence, `slice(-n)` keeps the last `n`.
 */
module StringOrder {

  /** `a < b` on strings. */
  predicate Less(a: string, b: string)
    decreases |a|
  {
    if a == [] then b != []
    else if b == [] then false
    else if a[0] != b[0] then a[0] < b[0]
    else Less(a[1..], b[1..])
  }

  lemma {:induction false} LessIrreflexive(a: string)
    ensures !Less(a, a)
  {
    if a != [] {
      LessIrreflexive(a[1..]);
    }
  }

  lemma {:induction false} LessAsymmetric(a: string, b: string)
    requires Less(a, b)
    ensures !Less(b, a)
  {
    if a != [] && b != [] && a[0] == b[0] {
      LessAsymmetric(a[1..], b[1..]);
    }
  }

  lemma {:induction false} LessTransitive(a: string, b: string, c: string)
    requires Less(a, b) && Less(b, c)
    ensures Less(a, c)
  {
    if a != [] && a[0] == b[0] && b[0] == c[0] {
      LessTransitive(a[1..], b[1..], c[1..]);
    }
  }

  /** Any two different strings are ordered one way or the other. */
  lemma {:induction false} LessTotal(a: string, b: string)
    requires a != b
    ensures Less(a, b) || Less(b, a)
  {
    if a != [] && b != [] && a[0] == b[0] {
      assert a == [a[0]] + a[1..] && b == [b[0]] + b[1..];
      LessTotal(a[1..], b[1..]);
    }
  }

  /** "Not greater" is transitive too. */
  lemma NotLessTransitive(a: string, b: string, c: string)
    requires !Less(a, b) && !Less(b, c)
    ensures !Less(a, c)
  {
    if Less(a, c) {
      if b == c {
      } else {
        LessTotal(b, c);
        LessTransitive(a, c, b);
      }
    }
  }

  /** No element is greater than a later one. */
  predicate Sorted(s: seq<string>) {
    forall i, j :: 0 <= i < j < |s| ==> !Less(s[j], s[i])
  }

  /** Every element is smaller than every later one. */
  predicate Ascending(s: seq<string>) {
    forall i, j :: 0 <= i < j < |s| ==> Less(s[i], s[j])
  }

  predicate Distinct(s: seq<string>) {
    forall i, j :: 0 <= i < j < |s| ==> s[i] != s[j]
  }

  /** `x` placed before the first element of the sorted `s` that is not smaller. */
  function Insert(x: string, s: seq<string>): (r: seq<string>)
    ensures multiset(r) == multiset(s) + multiset{x}
    ensures forall y :: y in r <==> y == x || y in s
  {
    if s == [] then [x]
    else if Less(s[0], x) then
      assert s == [s[0]] + s[1..];
      [s[0]] + Insert(x, s[1..])
    else [x] + s
  }

  /** Inserting a new element into a sequence without repetitions repeats nothing. */
  lemma {:induction false} InsertDistinct(x: string, s: seq<string>)
    requires Distinct(s) && x !in s
    ensures Distinct(Insert(x, s))
  {
    if s != [] && Less(s[0], x) {
      assert s == [s[0]] + s[1..];
      LessIrreflexive(s[0]);
      InsertDistinct(x, s[1..]);
      var t := Insert(x, s[1..]);
      assert s[0] !in t;
      assert Insert(x, s) == [s[0]] + t;
    }
  }

  /** Inserting into a sorted sequence keeps it sorted. */
  lemma {:induction false} InsertSorted(x: string, s: seq<string>)
    requires Sorted(s)
    ensures Sorted(Insert(x, s))
  {
    if s == [] {
    } else if Less(s[0], x) {
      InsertSorted(x, s[1..]);
      var t := Insert(x, s[1..]);
      forall y | y in t
        ensures !Less(y, s[0])
      {
        if y == x {
          LessAsymmetric(s[0], x);
        }
      }
    } else {
      forall y | y in s
        ensures !Less(y, x)
      {
        var k :| 0 <= k < |s| && s[k] == y;
        if k == 0 {
          LessIrreflexive(y);
        }
        NotLessTransitive(y, s[0], x);
      }
    }
  }

  /** `xs.sort()`: a sorted permutation of `xs`. */
  function Sort(xs: seq<string>): (r: seq<string>)
    ensures multiset(r) == multiset(xs)
    ensures Sorted(r)
  {
    if xs == [] then []
    else
      var rest := Sort(xs[1..]);
      assert xs == [xs[0]] + xs[1..];
      InsertSorted(xs[0], rest);
      Insert(xs[0], rest)
  }

  /** Sorting a sequence without repetitions repeats nothing. */
  lemma {:induction false} SortDistinct(xs: seq<string>)
    requires Distinct(xs)
    ensures Distinct(Sort(xs))
  {
    if xs != [] {
      var rest := Sort(xs[1..]);
      assert xs == [xs[0]] + xs[1..];
      SortDistinct(xs[1..]);
      assert xs[0] !in multiset(xs[1..]);
      assert xs[0] !in rest by {
        assert xs[0] !in multiset(rest);
      }
      InsertDistinct(xs[0], rest);
    }
  }

  /** A sorted sequence without repetitions is strictly ascending. */
  lemma SortedDistinctAscending(s: seq<string>)
    requires Sorted(s) && Distinct(s)
    ensures Ascending(s)
  {
    forall i, j | 0 <= i < j < |s|
      ensures Less(s[i], s[j])
    {
      LessTotal(s[i], s[j]);
    }
  }

  /**
   * `s.slice(-n)`: the last `n` elements, or all of them when there are
   * fewer; `-0` is `0`, so `slice(-0)` keeps everything.
   */
  function Last(n: nat, s: seq<string>): (r: seq<string>)
    ensures |r| == if n == 0 || |s| <= n then |s| else n
    ensures r == s[|s| - |r|..]
  {
    if n == 0 || |s| <= n then s else s[|s| - n..]
  }

  /**
   * On an ascending sequence, `Last` keeps up to `n` elements in ascending
   * order, and every element it drops is smaller than every element it keeps.
   */
  lemma LastGreatest(n: nat, s: seq<string>)
    requires Ascending(s)
    ensures Ascending(Last(n, s))
    ensures forall y :: y in Last(n, s) ==> y in s
    ensures forall x, y :: x in s && x !in Last(n, s) && y in Last(n, s) ==> Less(x, y)
  {
    var r := Last(n, s);
    var start := |s| - |r|;
    forall x, y | x in s && x !in r && y in r
      ensures Less(x, y)
    {
      var i :| 0 <= i < |s| && s[i] == x;
      var j :| 0 <= j < |r| && r[j] == y;
      assert s[start + j] == y;
    }
  }
}
