/**
  Order-preserving selections over sequences: the model of the list and
  dict comprehensions the report generator uses to pick files out of the
  inventory (`[f for f in xs if p(f)]`, `{f: m[f] for f in xs if f in m}`).
  Every function here is defined from the back, so that a loop that appends
  one element at a time meets its definition step by step.
*/
module Sequences {

  /** Appending piece by piece builds the same sequence as appending the
      pieces joined. */
  lemma {:induction false} AppendAssoc<T>(a: seq<T>, b: seq<T>, c: seq<T>)
    ensures a + b + c == a + (b + c)
  {
  }

  /** No element occurs twice (the keys of a dict, in insertion order). */
  predicate NoDups<T(==,!new)>(s: seq<T>)
  {
    forall i, j :: 0 <= i < j < |s| ==> s[i] != s[j]
  }

  /** `a` is `b` with some elements deleted and the rest kept in order. */
  predicate IsSubseq<T(==,!new)>(a: seq<T>, b: seq<T>)
    decreases |b|
  {
    if a == [] then true
    else if b == [] then false
    else if a[|a| - 1] == b[|b| - 1] then IsSubseq(a[..|a| - 1], b[..|b| - 1])
    else IsSubseq(a, b[..|b| - 1])
  }

  /** Appending to the larger sequence keeps a subsequence a subsequence. */
  lemma {:induction false} SubseqExtend<T(!new)>(a: seq<T>, b: seq<T>, x: T)
    requires IsSubseq(a, b)
    ensures IsSubseq(a, b + [x])
    decreases |b|, 1
  {
    var b' := b + [x];
    assert b'[..|b'| - 1] == b;
    if a != [] && a[|a| - 1] == x {
      SubseqDropLast(a, b);
    }
  }

  /** Dropping the last element of a subsequence keeps it a subsequence. */
  lemma {:induction false} SubseqDropLast<T(!new)>(a: seq<T>, b: seq<T>)
    requires a != [] && IsSubseq(a, b)
    ensures IsSubseq(a[..|a| - 1], b)
    decreases |b|, 0
  {
    var b0 := b[..|b| - 1];
    assert b == b0 + [b[|b| - 1]];
    if a[|a| - 1] == b[|b| - 1] {
      SubseqExtend(a[..|a| - 1], b0, b[|b| - 1]);
    } else {
      SubseqDropLast(a, b0);
      SubseqExtend(a[..|a| - 1], b0, b[|b| - 1]);
    }
  }

  /** A subsequence of a subsequence is a subsequence. */
  lemma {:induction false} SubseqTransitive<T(!new)>(a: seq<T>, b: seq<T>, c: seq<T>)
    requires IsSubseq(a, b) && IsSubseq(b, c)
    ensures IsSubseq(a, c)
    decreases |c|
  {
    if a != [] {
      var c0 := c[..|c| - 1];
      var b0 := b[..|b| - 1];
      assert c == c0 + [c[|c| - 1]];
      if b[|b| - 1] == c[|c| - 1] {
        if a[|a| - 1] == b[|b| - 1] {
          SubseqTransitive(a[..|a| - 1], b0, c0);
        } else {
          SubseqTransitive(a, b0, c0);
        }
      } else {
        SubseqTransitive(a, b, c0);
        SubseqExtend(a, c0, c[|c| - 1]);
      }
    }
  }

  /** A subsequence of a sequence without duplicates has none either. */
  lemma {:induction false} SubseqOfDistinct<T(!new)>(a: seq<T>, b: seq<T>)
    requires IsSubseq(a, b) && NoDups(b)
    ensures NoDups(a)
    decreases |b|
  {
    if a != [] && b != [] {
      var b0 := b[..|b| - 1];
      assert NoDups(b0);
      if a[|a| - 1] == b[|b| - 1] {
        var a0 := a[..|a| - 1];
        var x := b[|b| - 1];
        SubseqOfDistinct(a0, b0);
        SubseqElements(a0, b0);
        assert x !in b0 by {
          forall i | 0 <= i < |b0|
            ensures b0[i] != x
          {
            assert b0[i] == b[i];
          }
        }
        assert a == a0 + [x];
        forall i, j | 0 <= i < j < |a|
          ensures a[i] != a[j]
        {
          if j == |a| - 1 {
            assert a[i] == a0[i];
          } else {
            assert a[i] == a0[i] && a[j] == a0[j];
          }
        }
      } else {
        SubseqOfDistinct(a, b0);
      }
    }
  }

  /** Every element of a subsequence is an element of the sequence. */
  lemma {:induction false} SubseqElements<T(!new)>(a: seq<T>, b: seq<T>)
    requires IsSubseq(a, b)
    ensures forall x :: x in a ==> x in b
    decreases |b|
  {
    if a != [] && b != [] {
      var b0 := b[..|b| - 1];
      assert b == b0 + [b[|b| - 1]];
      if a[|a| - 1] == b[|b| - 1] {
        var a0 := a[..|a| - 1];
        SubseqElements(a0, b0);
        assert a == a0 + [a[|a| - 1]];
      } else {
        SubseqElements(a, b0);
      }
    }
  }

  /** The elements of `s` that satisfy `p`, in their original order:
      `[x for x in s if p(x)]`. */
  function Filter<T(==,!new)>(s: seq<T>, p: T -> bool): (r: seq<T>)
    ensures |r| <= |s|
  {
    if s == [] then []
    else
      var front := s[..|s| - 1];
      var x := s[|s| - 1];
      Filter(front, p) + if p(x) then [x] else []
  }

  /** The filter keeps exactly the elements that satisfy `p`. */
  lemma {:induction false} FilterMembers<T(!new)>(s: seq<T>, p: T -> bool)
    ensures forall x :: x in Filter(s, p) <==> x in s && p(x)
  {
    if s != [] {
      var front := s[..|s| - 1];
      FilterMembers(front, p);
      assert s == front + [s[|s| - 1]];
    }
  }

  /** The filter keeps the order of the elements it keeps. */
  lemma {:induction false} FilterSubseq<T(!new)>(s: seq<T>, p: T -> bool)
    ensures IsSubseq(Filter(s, p), s)
  {
    if s != [] {
      var front := s[..|s| - 1];
      var x := s[|s| - 1];
      var f := Filter(front, p);
      FilterSubseq(front, p);
      assert s == front + [x];
      if p(x) {
        assert Filter(s, p) == f + [x];
        assert (f + [x])[..|f|] == f;
      } else {
        assert Filter(s, p) == f;
        SubseqExtend(f, front, x);
      }
    }
  }

  /** Splitting a sequence by a predicate loses and invents nothing:
      the two filters together are a permutation of the input. */
  lemma {:induction false} FilterPartition<T(!new)>(s: seq<T>, p: T -> bool, q: T -> bool)
    requires forall x :: q(x) == !p(x)
    ensures multiset(Filter(s, p)) + multiset(Filter(s, q)) == multiset(s)
  {
    if s != [] {
      var front := s[..|s| - 1];
      FilterPartition(front, p, q);
      assert s == front + [s[|s| - 1]];
    }
  }

  /** Filtering a concatenation filters each part. */
  lemma {:induction false} FilterConcat<T(!new)>(a: seq<T>, b: seq<T>, p: T -> bool)
    ensures Filter(a + b, p) == Filter(a, p) + Filter(b, p)
  {
    if b != [] {
      var front := b[..|b| - 1];
      FilterConcat(a, front, p);
      assert (a + b)[..|a + b| - 1] == a + front;
    } else {
      assert a + b == a;
    }
  }

  /** When every element satisfies `p`, filtering keeps the whole sequence. */
  lemma {:induction false} FilterAll<T(!new)>(s: seq<T>, p: T -> bool)
    requires forall x :: x in s ==> p(x)
    ensures Filter(s, p) == s
  {
    if s != [] {
      var front := s[..|s| - 1];
      FilterAll(front, p);
      assert s == front + [s[|s| - 1]];
    }
  }

  /** When no element satisfies `p`, filtering keeps nothing. */
  lemma {:induction false} FilterNone<T(!new)>(s: seq<T>, p: T -> bool)
    requires forall x :: x in s ==> !p(x)
    ensures Filter(s, p) == []
  {
    if s != [] {
      var front := s[..|s| - 1];
      assert s == front + [s[|s| - 1]];
      FilterNone(front, p);
    }
  }

  /** Filtering by a predicate that holds exactly when one of two exclusive
      predicates holds gives the elements of both filters, nothing more. */
  lemma {:induction false} FilterDisjointUnion<T(!new)>(s: seq<T>, p: T -> bool, q: T -> bool, r: T -> bool)
    requires forall x :: r(x) == (p(x) || q(x))
    requires forall x :: !(p(x) && q(x))
    ensures multiset(Filter(s, r)) == multiset(Filter(s, p)) + multiset(Filter(s, q))
  {
    if s != [] {
      var front := s[..|s| - 1];
      var x := s[|s| - 1];
      FilterDisjointUnion(front, p, q, r);
      assert s[..|s| - 1] == front;
      assert Filter(s, p) == Filter(front, p) + if p(x) then [x] else [];
      assert Filter(s, q) == Filter(front, q) + if q(x) then [x] else [];
      assert Filter(s, r) == Filter(front, r) + if r(x) then [x] else [];
    }
  }

  /** The first occurrence of each element of `s`, in order: the key order of
      a dict built by assigning the elements of `s` as keys one by one. */
  function Dedup<T(==,!new)>(s: seq<T>): (r: seq<T>)
    ensures |r| <= |s|
  {
    if s == [] then []
    else
      var d := Dedup(s[..|s| - 1]);
      var x := s[|s| - 1];
      if x in d then d else d + [x]
  }

  /** Deduplication keeps every element once and nothing else, in the order
      of first occurrence. */
  lemma {:induction false} DedupProperties<T(!new)>(s: seq<T>)
    ensures NoDups(Dedup(s))
    ensures forall x :: x in Dedup(s) <==> x in s
    ensures IsSubseq(Dedup(s), s)
  {
    DedupMembers(s);
    if s != [] {
      var front := s[..|s| - 1];
      var x := s[|s| - 1];
      var d := Dedup(front);
      DedupProperties(front);
      assert s == front + [x];
      if x in d {
        assert Dedup(s) == d;
        SubseqExtend(d, front, x);
      } else {
        assert Dedup(s) == d + [x];
        assert (d + [x])[..|d|] == d;
      }
    }
  }

  /** A sequence without repeats is its own deduplication. */
  lemma {:induction false} DedupDistinct<T(!new)>(s: seq<T>)
    requires NoDups(s)
    ensures Dedup(s) == s
  {
    if s != [] {
      var front := s[..|s| - 1];
      assert NoDups(front);
      DedupDistinct(front);
      DedupProperties(front);
      assert s[|s| - 1] !in front;
      assert s == front + [s[|s| - 1]];
    }
  }

  /** The position of the first occurrence of `x` in `s`. */
  function FirstIndex<T(==)>(s: seq<T>, x: T): (k: nat)
    requires x in s
    ensures k < |s| && s[k] == x && x !in s[..k]
  {
    var front := s[..|s| - 1];
    if x in front then
      var k := FirstIndex(front, x);
      assert s[..k] == front[..k];
      k
    else
      assert s[..|s| - 1] == front;
      |s| - 1
  }

  /** Appending leaves the first occurrence of an element already present where it was. */
  lemma {:induction false} FirstIndexAppend<T>(s: seq<T>, x: T, y: T)
    requires y in s
    ensures FirstIndex(s + [x], y) == FirstIndex(s, y)
    ensures y != x && x !in s ==> FirstIndex(s, y) < FirstIndex(s + [x], x)
  {
    assert (s + [x])[..|s|] == s;
  }

  /** Deduplication keeps exactly the elements of the input. */
  lemma {:induction false} DedupMembers<T(!new)>(s: seq<T>)
    ensures forall x :: x in Dedup(s) <==> x in s
  {
    if s != [] {
      DedupMembers(s[..|s| - 1]);
      assert s == s[..|s| - 1] + [s[|s| - 1]];
    }
  }

  /** Deduplication lists the elements in the order of their first
      occurrence in the input. */
  lemma {:induction false} DedupFirstOccurrence<T(!new)>(s: seq<T>)
    ensures forall x :: x in Dedup(s) ==> x in s
    ensures forall i, j :: 0 <= i < j < |Dedup(s)| ==> FirstIndex(s, Dedup(s)[i]) < FirstIndex(s, Dedup(s)[j])
  {
    DedupMembers(s);
    if s != [] {
      var front := s[..|s| - 1];
      var x := s[|s| - 1];
      var d := Dedup(front);
      DedupFirstOccurrence(front);
      DedupMembers(front);
      var r := Dedup(s);
      assert r == d || (x !in front && r == d + [x]);
      forall i, j | 0 <= i < j < |r|
        ensures FirstIndex(s, r[i]) < FirstIndex(s, r[j])
      {
        assert r[i] == d[i];
        FirstIndexAppend(front, x, d[i]);
        if j < |d| {
          assert r[j] == d[j];
          FirstIndexAppend(front, x, d[j]);
        } else {
          assert r[j] == x;
        }
      }
    }
  }

  /** Filtering keeps the order of first occurrences. */
  lemma {:induction false} FilterFirstIndex<T(!new)>(s: seq<T>, p: T -> bool, a: T, b: T)
    requires a in Filter(s, p) && b in Filter(s, p)
    requires FirstIndex(Filter(s, p), a) < FirstIndex(Filter(s, p), b)
    ensures a in s && b in s && FirstIndex(s, a) < FirstIndex(s, b)
  {
    FilterMembers(s, p);
    var front := s[..|s| - 1];
    var x := s[|s| - 1];
    var f := Filter(front, p);
    FilterMembers(front, p);
    assert s == front + [x];
    if a in f && b in f {
      if p(x) {
        FirstIndexAppend(f, x, a);
        FirstIndexAppend(f, x, b);
      } else {
        assert Filter(s, p) == f;
      }
      FilterFirstIndex(front, p, a, b);
      FirstIndexAppend(front, x, a);
      FirstIndexAppend(front, x, b);
    } else if b !in f {
      assert p(x) && Filter(s, p) == f + [x] && b == x && b !in front;
      assert FirstIndex(s, b) == |s| - 1;
      var k := FirstIndex(Filter(s, p), a);
      assert k < |f| && a == f[k];
      FirstIndexAppend(front, x, a);
    } else {
      assert false;
    }
  }
}
