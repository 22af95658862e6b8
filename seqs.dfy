/** Array operations the source uses: `filter`, `slice(0, n)`, and order facts about them. */
module Seqs {

  /** `r` is `s` with some elements removed and the rest kept in order. */
  predicate IsSubseq<T(==)>(r: seq<T>, s: seq<T>)
    decreases |s|
  {
    if r == [] then true
    else if s == [] then false
    else (r[0] == s[0] && IsSubseq(r[1..], s[1..])) || IsSubseq(r, s[1..])
  }

  /** No element occurs twice. */
  predicate Distinct<T(==)>(s: seq<T>) {
    forall i, j :: 0 <= i < j < |s| ==> s[i] != s[j]
  }

  /** `s.filter(p)`. */
  function Filter<T>(s: seq<T>, p: T -> bool): (r: seq<T>)
    ensures |r| <= |s|
    ensures forall i :: 0 <= i < |r| ==> r[i] in s && p(r[i])
    ensures forall i :: 0 <= i < |s| && p(s[i]) ==> s[i] in r
    ensures IsSubseq(r, s)
  {
    if s == [] then []
    else if p(s[0]) then
      var rest := Filter(s[1..], p);
      assert ([s[0]] + rest)[1..] == rest;
      [s[0]] + rest
    else Filter(s[1..], p)
  }

  /** `filter` keeps every match as often as it occurs, and nothing else. */
  lemma {:induction false} FilterMultiset<T>(s: seq<T>, p: T -> bool)
    ensures forall x :: multiset(Filter(s, p))[x] == if p(x) then multiset(s)[x] else 0
  {
    if s != [] {
      FilterMultiset(s[1..], p);
      assert s == [s[0]] + s[1..];
      assert multiset(s) == multiset{s[0]} + multiset(s[1..]);
      if p(s[0]) {
        assert multiset(Filter(s, p)) == multiset{s[0]} + multiset(Filter(s[1..], p));
      }
    }
  }

  /** `s.slice(0, n)`. */
  function Take<T>(s: seq<T>, n: nat): (r: seq<T>)
    ensures |r| == if n < |s| then n else |s|
    ensures r == s[..|r|]
  {
    if n < |s| then s[..n] else s
  }

  /** A subsequence is no longer than the sequence it is taken from. */
  lemma {:induction false} SubseqLength<T>(r: seq<T>, s: seq<T>)
    requires IsSubseq(r, s)
    ensures |r| <= |s|
    decreases |s|
  {
    if r != [] {
      if r[0] == s[0] && IsSubseq(r[1..], s[1..]) {
        SubseqLength(r[1..], s[1..]);
      } else {
        SubseqLength(r, s[1..]);
      }
    }
  }

  /** Every prefix of a sequence is a subsequence of it. */
  lemma {:induction false} PrefixIsSubseq<T>(s: seq<T>, n: nat)
    requires n <= |s|
    ensures IsSubseq(s[..n], s)
    decreases n
  {
    if n > 0 {
      assert s[..n][0] == s[0];
      assert s[..n][1..] == s[1..][..n - 1];
      PrefixIsSubseq(s[1..], n - 1);
    }
  }

  /** Being a subsequence is transitive. */
  lemma {:induction false} SubseqTrans<T>(a: seq<T>, b: seq<T>, c: seq<T>)
    requires IsSubseq(a, b) && IsSubseq(b, c)
    ensures IsSubseq(a, c)
    decreases |c|
  {
    if a == [] {
    } else if b == [] {
    } else if c == [] {
    } else if b[0] == c[0] && IsSubseq(b[1..], c[1..]) {
      if a[0] == b[0] && IsSubseq(a[1..], b[1..]) {
        SubseqTrans(a[1..], b[1..], c[1..]);
      } else {
        SubseqTrans(a, b[1..], c[1..]);
      }
    } else {
      SubseqTrans(a, b, c[1..]);
    }
  }

  /** `s.filter(p).slice(0, n)` keeps the order of `s`. */
  lemma FilterTakeIsSubseq<T>(s: seq<T>, p: T -> bool, n: nat)
    ensures IsSubseq(Take(Filter(s, p), n), s)
  {
    var f := Filter(s, p);
    PrefixIsSubseq(f, |Take(f, n)|);
    SubseqTrans(Take(f, n), f, s);
  }

  /** Filtering with a predicate every element satisfies changes nothing. */
  lemma {:induction false} FilterAll<T>(s: seq<T>, p: T -> bool)
    requires forall i :: 0 <= i < |s| ==> p(s[i])
    ensures Filter(s, p) == s
  {
    if s != [] {
      FilterAll(s[1..], p);
    }
  }

  /** Two predicates that agree on every element select the same elements. */
  lemma {:induction false} FilterSame<T>(s: seq<T>, p: T -> bool, q: T -> bool)
    requires forall i :: 0 <= i < |s| ==> p(s[i]) == q(s[i])
    ensures Filter(s, p) == Filter(s, q)
  {
    if s != [] {
      FilterSame(s[1..], p, q);
    }
  }

  /** Filtering a sequence without repetitions gives one without repetitions. */
  lemma {:induction false} FilterDistinct<T>(s: seq<T>, p: T -> bool)
    requires Distinct(s)
    ensures Distinct(Filter(s, p))
  {
    if s != [] {
      assert Distinct(s[1..]);
      FilterDistinct(s[1..], p);
      var rest := Filter(s[1..], p);
      if p(s[0]) {
        assert s[0] !in rest;
        var r := [s[0]] + rest;
        forall i, j | 0 <= i < j < |r| ensures r[i] != r[j] {
          if i == 0 {
            assert r[j] == rest[j - 1];
          } else {
            assert r[i] == rest[i - 1] && r[j] == rest[j - 1];
          }
        }
      }
    }
  }

  /** A sequence without repetitions has as many elements as its set. */
  lemma {:induction false} DistinctCard<T>(s: seq<T>)
    requires Distinct(s)
    ensures |set x | x in s| == |s|
  {
    if s != [] {
      assert Distinct(s[1..]);
      DistinctCard(s[1..]);
      var tail := set x | x in s[1..];
      assert (set x | x in s) == tail + {s[0]};
      assert s[0] !in tail;
    }
  }

  /** Filtering distributes over concatenation. */
  lemma {:induction false} FilterConcat<T>(a: seq<T>, b: seq<T>, p: T -> bool)
    ensures Filter(a + b, p) == Filter(a, p) + Filter(b, p)
  {
    if a != [] {
      assert (a + b)[0] == a[0];
      assert (a + b)[1..] == a[1..] + b;
      FilterConcat(a[1..], b, p);
      if p(a[0]) {
        calc {
          Filter(a + b, p);
          [a[0]] + Filter(a[1..] + b, p);
          [a[0]] + (Filter(a[1..], p) + Filter(b, p));
          ([a[0]] + Filter(a[1..], p)) + Filter(b, p);
        }
      }
    } else {
      assert a + b == b;
    }
  }

  /**
   * `s.filter(p).slice(0, n)` keeps the FIRST matches: a match of `s` that is
   * left out comes after `n` kept ones, all taken from before it.
   */
  lemma FilterTakeFirst<T>(s: seq<T>, p: T -> bool, n: nat, i: int)
    requires 0 <= i < |s| && p(s[i])
    requires s[i] !in Take(Filter(s, p), n)
    ensures |Take(Filter(s, p), n)| == n
    ensures IsSubseq(Take(Filter(s, p), n), s[..i])
  {
    var a, b := s[..i], s[i..];
    assert s == a + b;
    FilterConcat(a, b, p);
    var fa := Filter(a, p);
    assert b[0] == s[i] && b[1..] == s[i + 1..];
    assert Filter(b, p) == [s[i]] + Filter(s[i + 1..], p);
    var f := Filter(s, p);
    assert f == fa + [s[i]] + Filter(s[i + 1..], p);
    TakeReaches(fa, s[i], Filter(s[i + 1..], p), n);
    assert Take(f, n) == fa[..n];
    PrefixIsSubseq(fa, n);
    SubseqTrans(fa[..n], fa, a);
  }

  /** The first `n` elements include the element at any index below `n`. */
  lemma TakeReaches<T>(a: seq<T>, x: T, b: seq<T>, n: nat)
    ensures |a| < n ==> x in Take(a + [x] + b, n)
  {
    if |a| < n {
      assert (a + [x] + b)[|a|] == x;
      assert Take(a + [x] + b, n)[|a|] == x;
    }
  }

  /** `FilterTakeFirst` for every index at once. */
  lemma FilterTakeFirstAll<T>(s: seq<T>, p: T -> bool, n: nat)
    ensures forall i :: 0 <= i < |s| && p(s[i]) && s[i] !in Take(Filter(s, p), n) ==>
      |Take(Filter(s, p), n)| == n && IsSubseq(Take(Filter(s, p), n), s[..i])
  {
    forall i | 0 <= i < |s| && p(s[i]) && s[i] !in Take(Filter(s, p), n)
      ensures |Take(Filter(s, p), n)| == n && IsSubseq(Take(Filter(s, p), n), s[..i])
    {
      FilterTakeFirst(s, p, n, i);
    }
  }
}
