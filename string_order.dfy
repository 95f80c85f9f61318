/**
  Python's ordering of `str` values (code point by code point, a proper
  prefix before its extensions) and `sorted()` on a list of strings.
*/
module StringOrder {
  import opened Sequences

  /** `a < b` on Python strings. */
  predicate Below(a: string, b: string)
  {
    if b == [] then false
    else if a == [] then true
    else if a[0] != b[0] then a[0] < b[0]
    else Below(a[1..], b[1..])
  }

  lemma {:induction false} BelowAsymmetric(a: string, b: string)
    ensures Below(a, b) ==> !Below(b, a)
  {
    if a != [] && b != [] && a[0] == b[0] {
      BelowAsymmetric(a[1..], b[1..]);
    }
  }

  lemma {:induction false} BelowTransitive(a: string, b: string, c: string)
    requires Below(a, b) && Below(b, c)
    ensures Below(a, c)
  {
    if a != [] && a[0] == b[0] && b[0] == c[0] {
      BelowTransitive(a[1..], b[1..], c[1..]);
    }
  }

  lemma {:induction false} BelowTotal(a: string, b: string)
    ensures a == b || Below(a, b) || Below(b, a)
  {
    if a != [] && b != [] && a[0] == b[0] {
      BelowTotal(a[1..], b[1..]);
      if a[1..] == b[1..] {
        assert a == [a[0]] + a[1..] && b == [b[0]] + b[1..];
      }
    }
  }

  /** `<=` on Python strings, as "not above". */
  lemma {:induction false} NotBelowTransitive(a: string, b: string, c: string)
    requires !Below(b, a) && !Below(c, b)
    ensures !Below(c, a)
  {
    BelowTotal(a, b);
    BelowTotal(b, c);
    if Below(a, b) && Below(b, c) {
      BelowTransitive(a, b, c);
      BelowAsymmetric(a, c);
    } else if Below(a, b) {
      BelowAsymmetric(a, c);
    } else if Below(b, c) {
      BelowAsymmetric(b, c);
    }
  }

  /** Non-decreasing: no element is below an earlier one. */
  predicate Sorted(s: seq<string>)
  {
    forall i, j :: 0 <= i < j < |s| ==> !Below(s[j], s[i])
  }

  /** Strictly increasing. */
  predicate StrictlySorted(s: seq<string>)
  {
    forall i, j :: 0 <= i < j < |s| ==> Below(s[i], s[j])
  }

  lemma {:induction false} SortedPrepend(x: string, s: seq<string>)
    requires Sorted(s)
    requires s == [] || !Below(s[0], x)
    ensures Sorted([x] + s)
  {
    forall j | 0 <= j < |s|
      ensures !Below(s[j], x)
    {
      if j > 0 {
        NotBelowTransitive(x, s[0], s[j]);
      }
    }
  }

  lemma {:induction false} SortedPrependBelow(y: string, x: string, s: seq<string>, rest: seq<string>)
    requires Sorted([y] + s) && Below(y, x) && Sorted(rest)
    requires multiset(rest) == multiset(s) + multiset{x}
    ensures Sorted([y] + rest)
  {
    forall j | 0 <= j < |rest|
      ensures !Below(rest[j], y)
    {
      assert rest[j] in multiset(rest);
      if rest[j] == x {
        BelowAsymmetric(y, x);
      } else {
        assert rest[j] in multiset(s);
        var k :| 0 <= k < |s| && s[k] == rest[j];
        var t := [y] + s;
        assert t[0] == y && t[k + 1] == s[k];
        assert !Below(t[k + 1], t[0]);
      }
    }
  }

  lemma {:induction false} PrependDistinct(y: string, s: seq<string>, x: string, rest: seq<string>)
    requires NoDups([y] + s) && x != y && NoDups(rest)
    requires multiset(rest) == multiset(s) + multiset{x}
    ensures NoDups([y] + rest)
  {
    var t := [y] + s;
    assert y !in s by {
      forall k | 0 <= k < |s|
        ensures s[k] != y
      {
        assert t[k + 1] == s[k] && t[0] == y;
      }
    }
    assert y !in multiset(rest);
    var r := [y] + rest;
    forall i, j | 0 <= i < j < |r|
      ensures r[i] != r[j]
    {
      if i == 0 {
        assert r[j] == rest[j - 1];
      } else {
        assert r[i] == rest[i - 1] && r[j] == rest[j - 1];
      }
    }
  }

  function Insert(x: string, s: seq<string>): (r: seq<string>)
    requires Sorted(s)
    ensures Sorted(r)
    ensures multiset(r) == multiset(s) + multiset{x}
    ensures NoDups(s) && x !in s ==> NoDups(r)
  {
    if s == [] || !Below(s[0], x) then
      SortedPrepend(x, s);
      [x] + s
    else
      var rest := Insert(x, s[1..]);
      assert s == [s[0]] + s[1..];
      SortedPrependBelow(s[0], x, s[1..], rest);
      assert NoDups(s) && x !in s ==> NoDups([s[0]] + rest) by {
        if NoDups(s) && x !in s {
          PrependDistinct(s[0], s[1..], x, rest);
        }
      }
      [s[0]] + rest
  }

  /** `sorted(s)`: the same strings, in non-decreasing order. */
  function Sort(s: seq<string>): (r: seq<string>)
    ensures Sorted(r)
    ensures multiset(r) == multiset(s)
    ensures NoDups(s) ==> NoDups(r)
  {
    if s == [] then []
    else
      var front := s[..|s| - 1];
      var x := s[|s| - 1];
      assert s == front + [x];
      var sorted := Sort(front);
      assert NoDups(s) ==> x !in multiset(front);
      Insert(x, sorted)
  }

  /** Sorting strings that are pairwise different (the keys of a dict) gives
      a strictly increasing sequence holding exactly those strings. */
  lemma {:induction false} SortDistinct(s: seq<string>)
    requires NoDups(s)
    ensures StrictlySorted(Sort(s))
    ensures forall x :: x in Sort(s) <==> x in s
  {
    var r := Sort(s);
    forall i, j | 0 <= i < j < |r|
      ensures Below(r[i], r[j])
    {
      BelowTotal(r[i], r[j]);
    }
    forall x
      ensures x in r <==> x in s
    {
      assert x in r <==> x in multiset(r);
      assert x in s <==> x in multiset(s);
    }
  }
}
