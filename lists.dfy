// Sequence operations behind the site's array code: filter, counting, de-duplication
// through a Set (first occurrence wins), flattening, and a comparator sort.

module Lists {

  datatype Option<T> = None | Some(value: T)

  /** Array.prototype.filter. */
  function Filter<T(!new)>(s: seq<T>, keep: T -> bool): (r: seq<T>)
    ensures |r| <= |s|
    ensures forall x :: x in r <==> x in s && keep(x)
    ensures multiset(r) <= multiset(s)
  {
    if |s| == 0 then []
    else
      assert s == [s[0]] + s[1..];
      (if keep(s[0]) then [s[0]] else []) + Filter(s[1..], keep)
  }

  /** The filter keeps every copy of a kept element and no copy of a dropped one. */
  lemma {:induction false} FilterCopies<T(!new)>(s: seq<T>, keep: T -> bool)
    ensures forall x :: multiset(Filter(s, keep))[x] == if keep(x) then multiset(s)[x] else 0
  {
    if |s| > 0 {
      FilterCopies(s[1..], keep);
      assert s == [s[0]] + s[1..];
      assert multiset(s) == multiset{s[0]} + multiset(s[1..]);
    }
  }

  /** A filter that keeps every element is the identity. */
  lemma {:induction false} FilterAll<T(!new)>(s: seq<T>, keep: T -> bool)
    requires forall x :: x in s ==> keep(x)
    ensures Filter(s, keep) == s
  {
    if |s| > 0 {
      FilterAll(s[1..], keep);
      assert [s[0]] + s[1..] == s;
    }
  }

  /** A filter that keeps nothing gives the empty sequence. */
  lemma {:induction false} FilterNone<T(!new)>(s: seq<T>, keep: T -> bool)
    requires forall x :: x in s ==> !keep(x)
    ensures Filter(s, keep) == []
  {
    if |s| > 0 {
      FilterNone(s[1..], keep);
    }
  }

  /** Filters that agree on the elements give the same result. */
  lemma {:induction false} FilterExt<T(!new)>(s: seq<T>, f: T -> bool, g: T -> bool)
    requires forall x :: x in s ==> f(x) == g(x)
    ensures Filter(s, f) == Filter(s, g)
  {
    if |s| > 0 {
      FilterExt(s[1..], f, g);
    }
  }

  /** Two filters in a row are one filter by the conjunction. */
  lemma {:induction false} FilterFilter<T(!new)>(s: seq<T>, f: T -> bool, g: T -> bool, both: T -> bool)
    requires forall x :: x in s ==> both(x) == (f(x) && g(x))
    ensures Filter(Filter(s, f), g) == Filter(s, both)
  {
    if |s| > 0 {
      assert forall x :: x in s[1..] ==> x in s;
      FilterFilter(s[1..], f, g, both);
      var rest := Filter(s[1..], f);
      if f(s[0]) {
        assert Filter(s, f) == [s[0]] + rest;
        assert ([s[0]] + rest)[1..] == rest;
        assert Filter([s[0]] + rest, g) == (if g(s[0]) then [s[0]] else []) + Filter(rest, g);
      } else {
        assert Filter(s, f) == rest;
      }
    }
  }

  /** `a` is `b` with some elements left out, order kept. */
  predicate SubsequenceOf<T(==)>(a: seq<T>, b: seq<T>) {
    if |b| == 0 then |a| == 0
    else (|a| > 0 && a[0] == b[0] && SubsequenceOf(a[1..], b[1..])) || SubsequenceOf(a, b[1..])
  }

  lemma {:induction false} FilterSubsequence<T(!new)>(s: seq<T>, keep: T -> bool)
    ensures SubsequenceOf(Filter(s, keep), s)
  {
    if |s| > 0 {
      var rest := Filter(s[1..], keep);
      FilterSubsequence(s[1..], keep);
      if keep(s[0]) {
        assert Filter(s, keep) == [s[0]] + rest;
        assert ([s[0]] + rest)[1..] == rest;
      } else {
        assert Filter(s, keep) == rest;
      }
    }
  }

  /** A sorted sequence stays sorted under any filter. */
  lemma {:induction false} FilterSorted<T(!new)>(s: seq<T>, keep: T -> bool, le: (T, T) -> bool)
    requires SortedBy(s, le)
    ensures SortedBy(Filter(s, keep), le)
  {
    if |s| > 0 {
      FilterSorted(s[1..], keep, le);
      var rest := Filter(s[1..], keep);
      if keep(s[0]) {
        forall i, j | 0 <= i < j < |rest| + 1
          ensures le(([s[0]] + rest)[i], ([s[0]] + rest)[j])
        {
          if i == 0 {
            assert rest[j - 1] in s[1..];
          }
        }
      }
    }
  }

  /** Number of occurrences of `x`. */
  function Count<T(==)>(s: seq<T>, x: T): (n: nat)
    ensures n <= |s|
    ensures n == 0 <==> x !in s
  {
    if |s| == 0 then 0
    else Count(s[..|s| - 1], x) + (if s[|s| - 1] == x then 1 else 0)
  }

  lemma {:induction false} CountAppend<T>(a: seq<T>, b: seq<T>, x: T)
    ensures Count(a + b, x) == Count(a, x) + Count(b, x)
  {
    if |b| > 0 {
      CountAppend(a, b[..|b| - 1], x);
      assert (a + b)[..|a + b| - 1] == a + b[..|b| - 1];
    } else {
      assert a + b == a;
    }
  }

  /** Counting agrees with the multiset of the sequence. */
  lemma {:induction false} CountIsMultiplicity<T>(s: seq<T>, x: T)
    ensures Count(s, x) == multiset(s)[x]
  {
    if |s| > 0 {
      CountIsMultiplicity(s[..|s| - 1], x);
      assert s == s[..|s| - 1] + [s[|s| - 1]];
    }
  }

  predicate NoDuplicates<T(==)>(s: seq<T>) {
    forall i, j :: 0 <= i < j < |s| ==> s[i] != s[j]
  }

  lemma NoDuplicatesAppend<T>(a: seq<T>, b: seq<T>)
    requires NoDuplicates(a) && NoDuplicates(b)
    requires forall x :: x in a ==> x !in b
    ensures NoDuplicates(a + b)
  {
    forall i, j | 0 <= i < j < |a + b| ensures (a + b)[i] != (a + b)[j] {
      if i < |a| && j >= |a| {
        assert (a + b)[i] in a && (a + b)[j] == b[j - |a|];
      }
    }
  }

  /** No duplicates means every element occurs at most once in the multiset. */
  lemma {:induction false} NoDuplicatesMultiset<T>(s: seq<T>)
    ensures NoDuplicates(s) <==> forall x :: multiset(s)[x] <= 1
  {
    if NoDuplicates(s) {
      NoDuplicatesAtMostOnce(s);
    } else {
      var i, j :| 0 <= i < j < |s| && s[i] == s[j];
      assert s == s[..i] + [s[i]] + s[i + 1..j] + [s[j]] + s[j + 1..];
      assert multiset(s)[s[i]] >= 2;
    }
  }

  lemma {:induction false} NoDuplicatesAtMostOnce<T>(s: seq<T>)
    requires NoDuplicates(s)
    ensures forall x :: multiset(s)[x] <= 1
  {
    if |s| > 0 {
      var rest := s[1..];
      assert s == [s[0]] + rest;
      assert NoDuplicates(rest) by {
        forall i, j | 0 <= i < j < |rest| ensures rest[i] != rest[j] {
          assert rest[i] == s[i + 1] && rest[j] == s[j + 1];
        }
      }
      NoDuplicatesAtMostOnce(rest);
      assert s[0] !in rest by {
        forall k | 0 <= k < |rest| ensures rest[k] != s[0] {
          assert rest[k] == s[k + 1];
        }
      }
    }
  }

  /** Reordering a sequence keeps it free of duplicates. */
  lemma PermutationKeepsNoDuplicates<T>(a: seq<T>, b: seq<T>)
    requires multiset(a) == multiset(b) && NoDuplicates(a)
    ensures NoDuplicates(b)
  {
    NoDuplicatesMultiset(a);
    NoDuplicatesMultiset(b);
  }

  /** Position of the first occurrence of `x`. */
  function IndexOf<T(==)>(s: seq<T>, x: T): (i: nat)
    requires x in s
    ensures i < |s| && s[i] == x && x !in s[..i]
  {
    if s[0] == x then 0 else 1 + IndexOf(s[1..], x)
  }

  lemma {:induction false} IndexOfPrefix<T>(p: seq<T>, q: seq<T>, x: T)
    requires x in p
    ensures IndexOf(p + q, x) == IndexOf(p, x)
  {
    if p[0] != x {
      assert (p + q)[1..] == p[1..] + q;
      IndexOfPrefix(p[1..], q, x);
    }
  }

  lemma IndexOfLast<T>(p: seq<T>, x: T)
    requires x !in p
    ensures IndexOf(p + [x], x) == |p|
  {
  }

  /**
   * The elements of `s` without repeats, each at its first occurrence, which is
   * the order in which `Array.from(new Set(s))` lists them.
   */
  function Dedupe<T(==,!new)>(s: seq<T>): (r: seq<T>)
    ensures NoDuplicates(r)
    ensures forall x :: x in r <==> x in s
    ensures forall i, j :: 0 <= i < j < |r| ==> IndexOf(s, r[i]) < IndexOf(s, r[j])
  {
    if |s| == 0 then []
    else
      var p := s[..|s| - 1];
      var x := s[|s| - 1];
      var d := Dedupe(p);
      assert s == p + [x];
      forall y | y in p ensures IndexOf(s, y) == IndexOf(p, y) {
        IndexOfPrefix(p, [x], y);
      }
      if x in d then d
      else
        IndexOfLast(p, x);
        d + [x]
  }

  /** The concatenation of a sequence of sequences, as `flatMap` builds it. */
  function Flatten<T(!new)>(ss: seq<seq<T>>): (r: seq<T>)
    ensures forall x :: x in r <==> exists i :: 0 <= i < |ss| && x in ss[i]
  {
    if |ss| == 0 then []
    else
      var r := Flatten(ss[..|ss| - 1]) + ss[|ss| - 1];
      assert forall i :: 0 <= i < |ss| - 1 ==> ss[..|ss| - 1][i] == ss[i];
      r
  }

  ghost predicate Total<T(!new)>(le: (T, T) -> bool) {
    forall a, b :: le(a, b) || le(b, a)
  }

  ghost predicate Transitive<T(!new)>(le: (T, T) -> bool) {
    forall a, b, c :: le(a, b) && le(b, c) ==> le(a, c)
  }

  predicate SortedBy<T>(s: seq<T>, le: (T, T) -> bool) {
    forall i, j :: 0 <= i < j < |s| ==> le(s[i], s[j])
  }

  /** Inserts `x` before the first element it may precede. */
  function InsertBy<T(!new)>(x: T, s: seq<T>, le: (T, T) -> bool): (r: seq<T>)
    requires Total(le) && Transitive(le) && SortedBy(s, le)
    ensures multiset(r) == multiset(s) + multiset{x}
    ensures SortedBy(r, le)
  {
    if |s| == 0 then [x]
    else if le(x, s[0]) then
      FirstLeAll(x, s, le);
      SortedCons(x, s, le);
      [x] + s
    else
      var rest := InsertBy(x, s[1..], le);
      assert s == [s[0]] + s[1..];
      assert forall z :: z in rest ==> z == x || z in s[1..] by {
        forall z | z in rest ensures z == x || z in s[1..] {
          assert z in multiset(rest);
        }
      }
      FirstLeAll(s[0], s, le);
      SortedCons(s[0], rest, le);
      [s[0]] + rest
  }

  /** In a sorted sequence (or before one, when `y` precedes its head) `y` is below every element. */
  lemma FirstLeAll<T(!new)>(y: T, s: seq<T>, le: (T, T) -> bool)
    requires Transitive(le) && SortedBy(s, le) && |s| > 0 && le(y, s[0])
    ensures forall z :: z in s ==> le(y, z)
  {
    forall z | z in s ensures le(y, z) {
      var k :| 0 <= k < |s| && s[k] == z;
      if k > 0 {
        assert le(s[0], s[k]);
      }
    }
  }

  lemma SortedCons<T(!new)>(y: T, s: seq<T>, le: (T, T) -> bool)
    requires SortedBy(s, le) && forall z :: z in s ==> le(y, z)
    ensures SortedBy([y] + s, le)
  {
    forall i, j | 0 <= i < j < |s| + 1 ensures le(([y] + s)[i], ([y] + s)[j]) {
      if i == 0 {
        assert s[j - 1] in s;
      }
    }
  }

  /** A comparator sort (insertion sort; equal elements keep their order). */
  function SortBy<T(!new)>(s: seq<T>, le: (T, T) -> bool): (r: seq<T>)
    requires Total(le) && Transitive(le)
    ensures multiset(r) == multiset(s)
    ensures |r| == |s|
    ensures SortedBy(r, le)
  {
    if |s| == 0 then []
    else
      assert s == [s[0]] + s[1..];
      InsertBy(s[0], SortBy(s[1..], le), le)
  }
}
