/**
 * Sequence and string helpers shared by the dashboard model: the JavaScript
 * built-ins the source leans on (`String.prototype.includes`,
 * `Array.prototype.filter`, insertion-ordered `Set`, and the stable
 * `Array.prototype.sort`) written out as Dafny functions with their laws.
 */
module Common {

  datatype Option<+T> = None | Some(value: T)

  // ---------------------------------------------------------------------
  // Substring test (`s.includes(t)` on strings)
  // ---------------------------------------------------------------------

  /** `t` occurs in `s` starting at position `i`. */
  predicate OccursAt(s: string, t: string, i: int) {
    0 <= i && i + |t| <= |s| && s[i..i + |t|] == t
  }

  /** `s.includes(t)`: `t` is a contiguous block of `s`. */
  predicate Contains(s: string, t: string) {
    exists i :: 0 <= i <= |s| && OccursAt(s, t, i)
  }

  /** Nothing non-empty occurs in the empty string (absent text never matches a keyword). */
  lemma EmptyContainsNothing(t: string)
    requires t != []
    ensures !Contains([], t)
  {
  }

  /** A string occurs in any string that has it as a block at a known position. */
  lemma ContainsWitness(s: string, t: string, i: nat)
    requires i + |t| <= |s| && s[i..i + |t|] == t
    ensures Contains(s, t)
  {
    assert OccursAt(s, t, i);
  }

  /** Extending a prefix by one element. */
  lemma PrefixStep<T>(s: seq<T>, j: nat)
    requires j < |s|
    ensures s[..j + 1] == s[..j] + [s[j]]
  {
  }

  lemma SeqAssoc<T>(a: seq<T>, b: seq<T>, c: seq<T>)
    ensures a + b + c == a + (b + c)
  {
  }

  /** Extending a prefix of the second operand of a concatenation by one element. */
  lemma PrefixAppend<T>(a: seq<T>, b: seq<T>, j: nat)
    requires j < |b|
    ensures a + b[..j + 1] == (a + b[..j]) + [b[j]]
  {
    assert b[..j + 1] == b[..j] + [b[j]];
  }

  /** An element of a prefix is an element of the whole sequence. */
  lemma InPrefix<T>(x: T, s: seq<T>, n: nat)
    requires n <= |s| && x in s[..n]
    ensures x in s
  {
    var m :| 0 <= m < n && s[..n][m] == x;
    assert s[m] == x;
  }

  /** What was in `s`, or was appended to it, is still in a sequence that starts with `s + [h]`. */
  lemma InExtension<T>(x: T, s: seq<T>, h: T, t: seq<T>)
    requires |s| + 1 <= |t| && t[..|s| + 1] == s + [h]
    requires x in s || x == h
    ensures x in t
  {
    InPrefix(x, t, |s| + 1);
  }

  /** Splitting off the last element of the second operand of a concatenation. */
  lemma AppendLast<T>(a: seq<T>, b: seq<T>)
    requires b != []
    ensures a + b == (a + b[..|b| - 1]) + [b[|b| - 1]]
  {
    assert b == b[..|b| - 1] + [b[|b| - 1]];
  }

  // ---------------------------------------------------------------------
  // Map (`Array.prototype.map`)
  // ---------------------------------------------------------------------

  /** `f` applied to each element of `s`, in order. */
  function Map<A, B>(s: seq<A>, f: A -> B): (r: seq<B>)
    ensures |r| == |s|
  {
    if s == [] then [] else Map(s[..|s| - 1], f) + [f(s[|s| - 1])]
  }

  lemma {:induction false} MapAt<A, B>(s: seq<A>, f: A -> B, k: nat)
    requires k < |s|
    ensures Map(s, f)[k] == f(s[k])
  {
    var n := |s| - 1;
    if k < n {
      MapAt(s[..n], f, k);
      assert s[..n][k] == s[k];
    }
  }

  // ---------------------------------------------------------------------
  // Filter (`Array.prototype.filter`)
  // ---------------------------------------------------------------------

  /** The elements of `s` that satisfy `p`, in their original order. */
  function Filter<T>(s: seq<T>, p: T -> bool): (r: seq<T>)
    ensures |r| <= |s|
  {
    if s == [] then []
    else Filter(s[..|s| - 1], p) + (if p(s[|s| - 1]) then [s[|s| - 1]] else [])
  }

  /** Filtering distributes over concatenation: the kept elements keep their order. */
  lemma {:induction false} FilterAppend<T>(a: seq<T>, b: seq<T>, p: T -> bool)
    ensures Filter(a + b, p) == Filter(a, p) + Filter(b, p)
    decreases |b|
  {
    if b == [] {
      assert a + b == a;
    } else {
      var n := |b| - 1;
      assert (a + b)[..|a + b| - 1] == a + b[..n];
      assert (a + b)[|a + b| - 1] == b[n];
      FilterAppend(a, b[..n], p);
    }
  }

  /** An element is kept exactly as often as it occurs, when it satisfies `p`, and never otherwise. */
  lemma {:induction false} FilterCount<T>(s: seq<T>, p: T -> bool, x: T)
    ensures multiset(Filter(s, p))[x] == if p(x) then multiset(s)[x] else 0
  {
    if s != [] {
      var n := |s| - 1;
      FilterCount(s[..n], p, x);
      assert s == s[..n] + [s[n]];
      assert multiset(s) == multiset(s[..n]) + multiset{s[n]};
    }
  }

  /** Membership in a filtered sequence. */
  lemma {:induction false} FilterIn<T>(s: seq<T>, p: T -> bool, x: T)
    ensures x in Filter(s, p) <==> x in s && p(x)
  {
    FilterCount(s, p, x);
    assert x in Filter(s, p) <==> multiset(Filter(s, p))[x] > 0;
    assert x in s <==> multiset(s)[x] > 0;
  }

  // ---------------------------------------------------------------------
  // Distinct elements in order of first occurrence (insertion-ordered `Set`,
  // the keys of an object filled by `counts[v] = (counts[v] || 0) + 1`)
  // ---------------------------------------------------------------------

  /** The distinct elements of `s`, each where it first occurs. */
  function Distinct<T(==)>(s: seq<T>): (r: seq<T>)
    ensures |r| <= |s|
  {
    if s == [] then []
    else if s[|s| - 1] in s[..|s| - 1] then Distinct(s[..|s| - 1])
    else Distinct(s[..|s| - 1]) + [s[|s| - 1]]
  }

  predicate NoDuplicates<T(==)>(s: seq<T>) {
    forall i, j :: 0 <= i < j < |s| ==> s[i] != s[j]
  }

  /** `Distinct` keeps exactly the elements of `s`, once each. */
  lemma {:induction false} DistinctSpec<T>(s: seq<T>)
    ensures forall x :: x in Distinct(s) <==> x in s
    ensures NoDuplicates(Distinct(s))
  {
    if s != [] {
      var n := |s| - 1;
      DistinctSpec(s[..n]);
      assert s == s[..n] + [s[n]];
      forall x ensures x in s <==> x in s[..n] || x == s[n] {
        assert x in s ==> x in s[..n] || x == s[n] by {
          if x in s {
            var k :| 0 <= k < |s| && s[k] == x;
            if k < n { assert s[..n][k] == x; }
          }
        }
      }
    }
  }

  /** An element of a duplicate-free sequence occurs at most once. */
  lemma {:induction false} DistinctOnce<T>(s: seq<T>, x: T)
    requires NoDuplicates(s)
    ensures multiset(s)[x] <= 1
  {
    if s != [] {
      var n := |s| - 1;
      DistinctOnce(s[..n], x);
      assert s == s[..n] + [s[n]];
      forall k | 0 <= k < n ensures s[..n][k] != s[n] {
        assert s[..n][k] == s[k];
      }
    }
  }

  /** A sequence in which no element occurs twice has no duplicates. */
  lemma NoDuplicatesFromCounts<T>(s: seq<T>)
    requires forall x :: multiset(s)[x] <= 1
    ensures NoDuplicates(s)
  {
    forall i, j | 0 <= i < j < |s| ensures s[i] != s[j] {
      var left, right := s[..j], s[j..];
      assert s == left + right;
      assert s[i] == left[i];
      assert s[j] == right[0];
      assert multiset(s) == multiset(left) + multiset(right);
      assert multiset(s)[s[i]] == multiset(left)[s[i]] + multiset(right)[s[i]];
      assert multiset(left)[s[i]] >= 1 && multiset(right)[s[j]] >= 1;
      assert multiset(s)[s[i]] <= 1;
    }
  }

  // ---------------------------------------------------------------------
  // Stable sort by a key, largest first (`[...s].sort((a, b) => key(b) - key(a))`)
  // ---------------------------------------------------------------------

  predicate SortedDesc<T>(s: seq<T>, key: T -> int) {
    forall i, j :: 0 <= i < j < |s| ==> key(s[i]) >= key(s[j])
  }

  /** Puts `x` before the first element whose key is not larger than its own. */
  function Insert<T>(x: T, t: seq<T>, key: T -> int): (r: seq<T>)
    ensures |r| == |t| + 1
  {
    if t == [] || key(x) >= key(t[0]) then [x] + t
    else [t[0]] + Insert(x, t[1..], key)
  }

  /** The elements of `s` ordered by non-increasing key; ties keep their input order. */
  function SortDesc<T>(s: seq<T>, key: T -> int): (r: seq<T>)
    ensures |r| == |s|
  {
    if s == [] then [] else Insert(s[0], SortDesc(s[1..], key), key)
  }

  lemma {:induction false} InsertPerm<T>(x: T, t: seq<T>, key: T -> int)
    ensures multiset(Insert(x, t, key)) == multiset(t) + multiset{x}
  {
    if t != [] && key(x) < key(t[0]) {
      InsertPerm(x, t[1..], key);
      assert t == [t[0]] + t[1..];
    }
  }

  lemma {:induction false} InsertSorted<T>(x: T, t: seq<T>, key: T -> int)
    requires SortedDesc(t, key)
    ensures SortedDesc(Insert(x, t, key), key)
  {
    if t != [] && key(x) < key(t[0]) {
      var t' := t[1..];
      InsertSorted(x, t', key);
      InsertPerm(x, t', key);
      var r := Insert(x, t', key);
      forall j | 0 <= j < |r| ensures key(t[0]) >= key(r[j]) {
        assert r[j] in multiset(r);
        if r[j] != x {
          assert r[j] in multiset(t');
          var k :| 0 <= k < |t'| && t'[k] == r[j];
          assert t[k + 1] == r[j];
        }
      }
      assert Insert(x, t, key) == [t[0]] + r;
    }
  }

  lemma {:induction false} SortDescSorted<T>(s: seq<T>, key: T -> int)
    ensures SortedDesc(SortDesc(s, key), key)
  {
    if s != [] {
      SortDescSorted(s[1..], key);
      InsertSorted(s[0], SortDesc(s[1..], key), key);
    }
  }

  lemma {:induction false} SortDescPerm<T>(s: seq<T>, key: T -> int)
    ensures multiset(SortDesc(s, key)) == multiset(s)
  {
    if s != [] {
      SortDescPerm(s[1..], key);
      InsertPerm(s[0], SortDesc(s[1..], key), key);
      assert s == [s[0]] + s[1..];
    }
  }

  /** The sort orders by key and is a permutation of its input. */
  lemma SortDescSpec<T>(s: seq<T>, key: T -> int)
    ensures SortedDesc(SortDesc(s, key), key)
    ensures multiset(SortDesc(s, key)) == multiset(s)
  {
    SortDescSorted(s, key);
    SortDescPerm(s, key);
  }

  /** The elements whose key is exactly `k`. */
  function KeyIs<T>(key: T -> int, k: int): T -> bool {
    x => key(x) == k
  }

  /** Filtering a single element keeps it exactly when it satisfies `p`. */
  lemma FilterSingle<T>(x: T, p: T -> bool)
    ensures Filter([x], p) == if p(x) then [x] else []
  {
    assert [x][..0] == [];
  }

  /** Insertion moves `x` only past elements with larger keys, so it keeps the order among equal keys. */
  lemma {:induction false} InsertStable<T>(x: T, t: seq<T>, key: T -> int, k: int)
    ensures Filter(Insert(x, t, key), KeyIs(key, k)) == Filter([x], KeyIs(key, k)) + Filter(t, KeyIs(key, k))
  {
    var p := KeyIs(key, k);
    if t == [] || key(x) >= key(t[0]) {
      FilterAppend([x], t, p);
    } else {
      var rest := Insert(x, t[1..], key);
      InsertStable(x, t[1..], key, k);
      assert Insert(x, t, key) == [t[0]] + rest;
      FilterAppend([t[0]], rest, p);
      assert t == [t[0]] + t[1..];
      FilterAppend([t[0]], t[1..], p);
      FilterSingle(x, p);
      FilterSingle(t[0], p);
      var fx, f0, ft := Filter([x], p), Filter([t[0]], p), Filter(t[1..], p);
      // t[0] has a larger key than x, so at most one of the two has key k
      assert f0 == [] || fx == [];
      assert f0 + fx == fx + f0;
      SeqAssoc(f0, fx, ft);
      SeqAssoc(fx, f0, ft);
    }
  }

  /** Stability: among elements with equal keys the sorted order is the input order. */
  lemma {:induction false} SortDescStable<T>(s: seq<T>, key: T -> int, k: int)
    ensures Filter(SortDesc(s, key), KeyIs(key, k)) == Filter(s, KeyIs(key, k))
  {
    if s != [] {
      SortDescStable(s[1..], key, k);
      InsertStable(s[0], SortDesc(s[1..], key), key, k);
      assert s == [s[0]] + s[1..];
      FilterAppend([s[0]], s[1..], KeyIs(key, k));
    }
  }

  /** The first `n` elements of the sorted copy (`.slice(0, n)`). */
  function TopN<T>(s: seq<T>, key: T -> int, n: nat): (r: seq<T>)
    ensures |r| == if |s| < n then |s| else n
  {
    var sorted := SortDesc(s, key);
    if |sorted| <= n then sorted else sorted[..n]
  }

  /**
   * The top-n list is ordered by key, drawn from the input, and no element
   * left out ranks above one that was taken.
   */
  lemma TopNSpec<T>(s: seq<T>, key: T -> int, n: nat)
    ensures SortedDesc(TopN(s, key, n), key)
    ensures multiset(TopN(s, key, n)) <= multiset(s)
    ensures forall x, y :: x in TopN(s, key, n) && y in s && y !in TopN(s, key, n) ==> key(x) >= key(y)
  {
    var sorted := SortDesc(s, key);
    SortDescSpec(s, key);
    forall y | y in s ensures y in sorted {
      assert y in multiset(s);
    }
    SortedPrefix(sorted, key, if |sorted| <= n then |sorted| else n);
  }

  /** A prefix of a sorted sequence is sorted, and ranks at least as high as everything after it. */
  lemma SortedPrefix<T>(sorted: seq<T>, key: T -> int, n: nat)
    requires SortedDesc(sorted, key) && n <= |sorted|
    ensures SortedDesc(sorted[..n], key)
    ensures multiset(sorted[..n]) <= multiset(sorted)
    ensures forall x, y :: x in sorted[..n] && y in sorted && y !in sorted[..n] ==> key(x) >= key(y)
  {
    var r := sorted[..n];
    assert sorted == r + sorted[n..];
    forall x, y | x in r && y in sorted && y !in r ensures key(x) >= key(y) {
      var i :| 0 <= i < n && r[i] == x;
      var j :| 0 <= j < |sorted| && sorted[j] == y;
      forall m | 0 <= m < n ensures sorted[m] != y {
        assert r[m] == sorted[m];
      }
      assert sorted[i] == x;
    }
  }
}
