/** The two orderings the apps rely on: Python's `sorted(xs, key=k, reverse=True)`
    (a stable sort, largest key first) and `sorted` of strings (code-point order). */
module Sorting {

  /** Keys never increase from left to right. */
  ghost predicate SortedDesc<T>(s: seq<T>, key: T -> real)
  {
    forall i, j :: 0 <= i < j < |s| ==> key(s[i]) >= key(s[j])
  }

  /** Inserts x after every element whose key is at least x's: an element that comes
      later in the input stays behind earlier ones with the same key. */
  function InsertDesc<T>(x: T, s: seq<T>, key: T -> real): (r: seq<T>)
    ensures |r| == |s| + 1
    ensures multiset(r) == multiset(s) + multiset{x}
  {
    if s == [] then [x]
    else
      assert s == [s[0]] + s[1..];
      if key(s[0]) >= key(x) then [s[0]] + InsertDesc(x, s[1..], key) else [x] + s
  }

  /** sorted(s, key=key, reverse=True) */
  function SortDesc<T>(s: seq<T>, key: T -> real): (r: seq<T>)
    ensures |r| == |s|
    ensures multiset(r) == multiset(s)
  {
    if s == [] then []
    else
      assert s == s[..|s| - 1] + [s[|s| - 1]];
      InsertDesc(s[|s| - 1], SortDesc(s[..|s| - 1], key), key)
  }

  lemma {:induction false} InsertDescSorted<T>(x: T, s: seq<T>, key: T -> real)
    requires SortedDesc(s, key)
    ensures SortedDesc(InsertDesc(x, s, key), key)
  {
    if s != [] && key(s[0]) >= key(x) {
      InsertDescSorted(x, s[1..], key);
      var t := InsertDesc(x, s[1..], key);
      forall y | y in multiset(t) ensures key(s[0]) >= key(y) {
        if y != x { HeadBound(s, key, y); }
      }
      HeadFirst(s[0], t, key);
    }
  }

  /** The head of a sorted sequence bounds every later element. */
  lemma HeadBound<T>(s: seq<T>, key: T -> real, y: T)
    requires SortedDesc(s, key) && s != [] && y in multiset(s[1..])
    ensures key(s[0]) >= key(y)
  {
    var k :| 0 <= k < |s[1..]| && s[1..][k] == y;
    assert s[k + 1] == y;
  }

  /** Putting an upper bound of a sorted sequence in front keeps it sorted. */
  lemma HeadFirst<T>(h: T, t: seq<T>, key: T -> real)
    requires SortedDesc(t, key)
    requires forall y | y in multiset(t) :: key(h) >= key(y)
    ensures SortedDesc([h] + t, key)
  {
    var r := [h] + t;
    forall j | 0 < j < |r| ensures key(r[0]) >= key(r[j]) {
      assert r[j] == t[j - 1];
      assert r[j] in multiset(t);
    }
  }

  /** The result of SortDesc is in non-increasing key order. */
  lemma {:induction false} SortDescSorted<T>(s: seq<T>, key: T -> real)
    ensures SortedDesc(SortDesc(s, key), key)
  {
    if s != [] {
      SortDescSorted(s[..|s| - 1], key);
      InsertDescSorted(s[|s| - 1], SortDesc(s[..|s| - 1], key), key);
    }
  }

  /** The first element of a sorted sequence has the largest key of the whole input. */
  lemma SortDescFirstIsMax<T>(s: seq<T>, key: T -> real, y: T)
    requires y in s
    ensures SortDesc(s, key) != [] && key(SortDesc(s, key)[0]) >= key(y)
  {
    var r := SortDesc(s, key);
    SortDescSorted(s, key);
    assert y in multiset(r);
    var k :| 0 <= k < |r| && r[k] == y;
    if k > 0 { assert key(r[0]) >= key(r[k]); }
  }

  /** Cutting a descending sequence after n elements keeps it descending, and every
      element cut off has a key no larger than every element kept: the first n are the
      top n. */
  lemma PrefixIsTop<T>(s: seq<T>, key: T -> real, n: nat)
    requires SortedDesc(s, key) && n <= |s|
    ensures SortedDesc(s[..n], key)
    ensures multiset(s[..n]) <= multiset(s)
    ensures forall x, y :: x in s[..n] && y in multiset(s) - multiset(s[..n]) ==> key(x) >= key(y)
  {
    assert s == s[..n] + s[n..];
    assert multiset(s) == multiset(s[..n]) + multiset(s[n..]);
    forall x, y | x in s[..n] && y in multiset(s) - multiset(s[..n])
      ensures key(x) >= key(y)
    {
      assert y in multiset(s[n..]);
      var i :| 0 <= i < n && s[i] == x;
      var j :| 0 <= j < |s[n..]| && s[n..][j] == y;
      assert s[n + j] == y;
    }
  }

  /** Code-point (lexicographic) order on strings, as Python compares str values. */
  predicate LexLessEq(a: string, b: string)
  {
    if a == [] then true
    else if b == [] then false
    else if a[0] != b[0] then a[0] < b[0]
    else LexLessEq(a[1..], b[1..])
  }

  lemma {:induction false} LexTotal(a: string, b: string)
    ensures LexLessEq(a, b) || LexLessEq(b, a)
  {
    if a != [] && b != [] && a[0] == b[0] { LexTotal(a[1..], b[1..]); }
  }

  lemma {:induction false} LexAntisymmetric(a: string, b: string)
    requires LexLessEq(a, b) && LexLessEq(b, a)
    ensures a == b
  {
    if a != [] && b != [] {
      LexAntisymmetric(a[1..], b[1..]);
      assert a == [a[0]] + a[1..] && b == [b[0]] + b[1..];
    }
  }

  lemma {:induction false} LexTransitive(a: string, b: string, c: string)
    requires LexLessEq(a, b) && LexLessEq(b, c)
    ensures LexLessEq(a, c)
  {
    if a != [] && b != [] && c != [] && a[0] == b[0] && b[0] == c[0] {
      LexTransitive(a[1..], b[1..], c[1..]);
    }
  }

  /** Strictly ascending: sorted and without repeats. */
  ghost predicate StrictlyAscending(s: seq<string>)
  {
    forall i, j :: 0 <= i < j < |s| ==> LexLessEq(s[i], s[j]) && s[i] != s[j]
  }

  ghost predicate Ascending(s: seq<string>)
  {
    forall i, j :: 0 <= i < j < |s| ==> LexLessEq(s[i], s[j])
  }

  function InsertAsc(x: string, s: seq<string>): (r: seq<string>)
    ensures |r| == |s| + 1
    ensures multiset(r) == multiset(s) + multiset{x}
  {
    if s == [] then [x]
    else if LexLessEq(x, s[0]) then [x] + s
    else assert s == [s[0]] + s[1..]; [s[0]] + InsertAsc(x, s[1..])
  }

  /** sorted(s) for a list of strings. */
  function SortStrings(s: seq<string>): (r: seq<string>)
    ensures |r| == |s|
    ensures multiset(r) == multiset(s)
  {
    if s == [] then []
    else
      assert s == [s[0]] + s[1..];
      InsertAsc(s[0], SortStrings(s[1..]))
  }

  lemma {:induction false} InsertAscSorted(x: string, s: seq<string>)
    requires Ascending(s)
    ensures Ascending(InsertAsc(x, s))
  {
    if s == [] {
    } else if LexLessEq(x, s[0]) {
      var r := InsertAsc(x, s);
      forall i, j | 0 <= i < j < |r| ensures LexLessEq(r[i], r[j]) {
        if i == 0 && j > 1 { LexTransitive(x, s[0], s[j - 1]); }
      }
    } else {
      LexTotal(x, s[0]);
      InsertAscSorted(x, s[1..]);
      var r := InsertAsc(x, s);
      var t := InsertAsc(x, s[1..]);
      assert r == [s[0]] + t;
      forall j | 0 < j < |r| ensures LexLessEq(r[0], r[j]) {
        assert r[j] in multiset(t);
        if r[j] != x {
          var k :| 0 <= k < |s[1..]| && s[1..][k] == r[j];
          assert s[1..][k] == s[k + 1];
        }
      }
    }
  }

  lemma {:induction false} SortStringsAscending(s: seq<string>)
    ensures Ascending(SortStrings(s))
  {
    if s != [] {
      SortStringsAscending(s[1..]);
      InsertAscSorted(s[0], SortStrings(s[1..]));
    }
  }

  /** Sorting strings that are pairwise distinct yields a strictly ascending list. */
  lemma SortStringsStrict(s: seq<string>)
    requires forall i, j :: 0 <= i < j < |s| ==> s[i] != s[j]
    ensures StrictlyAscending(SortStrings(s))
  {
    var r := SortStrings(s);
    SortStringsAscending(s);
    forall i, j | 0 <= i < j < |r| ensures r[i] != r[j] {
      if r[i] == r[j] {
        RepeatCount(r, i, j);
        DistinctCount(s, r[i]);
      }
    }
  }

  lemma RepeatCount(r: seq<string>, i: int, j: int)
    requires 0 <= i < j < |r| && r[i] == r[j]
    ensures multiset(r)[r[i]] >= 2
  {
    var a, b, c := r[..i], r[i + 1..j], r[j + 1..];
    assert r == a + [r[i]] + b + [r[j]] + c;
    assert multiset(r) == multiset(a) + multiset{r[i]} + multiset(b) + multiset{r[j]} + multiset(c);
  }

  lemma {:induction false} DistinctCount(s: seq<string>, x: string)
    requires forall i, j :: 0 <= i < j < |s| ==> s[i] != s[j]
    ensures multiset(s)[x] <= 1
  {
    if s != [] {
      DistinctCount(s[1..], x);
      assert s == [s[0]] + s[1..];
      if s[0] == x {
        assert x !in s[1..];
      }
    }
  }
}
