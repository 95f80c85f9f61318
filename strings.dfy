/**
  The string operations the two scripts rely on, written out: decimal
  rendering of numbers (`str(n)` and f-string interpolation), `str.split`
  on one separator character, `str.replace` of one character, slicing
  `s[:n]`, `str.capitalize` and the directory part of a POSIX path.
*/
module Strings {

  predicate IsDigit(c: char)
  {
    '0' <= c <= '9'
  }

  predicate AllDigits(s: string)
  {
    forall i :: 0 <= i < |s| ==> IsDigit(s[i])
  }

  function DigitChar(d: nat): (c: char)
    requires d < 10
    ensures IsDigit(c) && c as int - '0' as int == d
  {
    ('0' as int + d) as char
  }

  /** `str(n)` for a natural number: decimal digits, no leading zero. */
  function NatToString(n: nat): (s: string)
    ensures |s| >= 1 && AllDigits(s)
    ensures s[0] == '0' ==> n == 0
    decreases n
  {
    if n < 10 then [DigitChar(n)] else NatToString(n / 10) + [DigitChar(n % 10)]
  }

  /** The number a string of decimal digits denotes. */
  function DigitsValue(s: string): nat
    requires AllDigits(s)
  {
    if s == [] then 0 else DigitsValue(s[..|s| - 1]) * 10 + (s[|s| - 1] as int - '0' as int)
  }

  /** Reading back the decimal text of `n` gives `n`: the rendering loses nothing,
      so two different counters never print the same. */
  lemma {:induction false} NatToStringRoundTrip(n: nat)
    ensures DigitsValue(NatToString(n)) == n
  {
    if n >= 10 {
      NatToStringRoundTrip(n / 10);
      var s := NatToString(n / 10);
      assert (s + [DigitChar(n % 10)])[..|s|] == s;
    }
  }

  /** `str(i)` for an integer: a minus sign before the digits when negative. */
  function IntToString(i: int): (s: string)
    ensures |s| >= 1
    ensures s[0] == '-' <==> i < 0
    ensures i < 0 ==> AllDigits(s[1..]) && DigitsValue(s[1..]) == -i
    ensures i >= 0 ==> AllDigits(s) && DigitsValue(s) == i
  {
    NatToStringRoundTrip(if i < 0 then -i else i);
    if i < 0 then
      var d := NatToString(-i);
      assert ("-" + d)[1..] == d;
      "-" + d
    else NatToString(i)
  }

  /** The Markdown list line `{idx}. `{path}`` shared by the report's numbered file lists. */
  function PathLine(idx: nat, path: string): string
  {
    NatToString(idx) + ". `" + path + "`"
  }

  /** A numbered line starts with a digit, so it is never a line of prose. */
  lemma {:induction false} PathLineIsNot(idx: nat, path: string, message: string)
    requires message != [] && !IsDigit(message[0])
    ensures PathLine(idx, path) != message
  {
    var s := NatToString(idx);
    assert PathLine(idx, path)[0] == s[0];
  }

  /** Number of occurrences of `c` in `s`. */
  function Count(s: string, c: char): nat
  {
    if s == [] then 0 else (if s[0] == c then 1 else 0) + Count(s[1..], c)
  }

  function IndexOf(s: string, c: char): (i: nat)
    requires c in s
    ensures i < |s| && s[i] == c && c !in s[..i]
  {
    if s[0] == c then 0
    else
      var j := IndexOf(s[1..], c);
      assert s[..j + 1] == [s[0]] + s[1..][..j];
      1 + j
  }

  function LastIndexOf(s: string, c: char): (i: nat)
    requires c in s
    ensures i < |s| && s[i] == c && c !in s[i + 1..]
  {
    if s[|s| - 1] == c then |s| - 1
    else
      var j := LastIndexOf(s[..|s| - 1], c);
      assert s[j + 1..] == s[..|s| - 1][j + 1..] + [s[|s| - 1]];
      j
  }

  /** `s.split(sep)`: the pieces between the separators, empty pieces kept. */
  function Split(s: string, sep: char): (parts: seq<string>)
    ensures |parts| == Count(s, sep) + 1
    ensures forall i :: 0 <= i < |parts| ==> sep !in parts[i]
    decreases |s|
  {
    if sep !in s then
      CountAbsent(s, sep);
      [s]
    else
      var i := IndexOf(s, sep);
      CountSplitsAt(s, sep, i);
      [s[..i]] + Split(s[i + 1..], sep)
  }

  lemma {:induction false} CountAbsent(s: string, c: char)
    requires c !in s
    ensures Count(s, c) == 0
  {
    if s != [] {
      CountAbsent(s[1..], c);
    }
  }

  lemma {:induction false} CountAppend(a: string, b: string, c: char)
    ensures Count(a + b, c) == Count(a, c) + Count(b, c)
  {
    if a != [] {
      CountAppend(a[1..], b, c);
      assert (a + b)[0] == a[0] && (a + b)[1..] == a[1..] + b;
      assert Count(a + b, c) == (if a[0] == c then 1 else 0) + Count(a[1..] + b, c);
    } else {
      assert a + b == b;
    }
  }

  lemma {:induction false} CountSplitsAt(s: string, c: char, i: nat)
    requires i < |s| && s[i] == c && c !in s[..i]
    ensures Count(s, c) == 1 + Count(s[i + 1..], c)
  {
    assert s == s[..i] + [c] + s[i + 1..];
    CountAppend(s[..i] + [c], s[i + 1..], c);
    CountAppend(s[..i], [c], c);
    CountAbsent(s[..i], c);
  }

  /** `sep.join(parts)`. */
  function Join(parts: seq<string>, sep: char): string
    requires |parts| >= 1
  {
    if |parts| == 1 then parts[0] else parts[0] + [sep] + Join(parts[1..], sep)
  }

  /** Joining the pieces of a split gives back the string. */
  lemma {:induction false} SplitJoin(s: string, sep: char)
    ensures Join(Split(s, sep), sep) == s
    decreases |s|
  {
    if sep in s {
      var i := IndexOf(s, sep);
      SplitJoin(s[i + 1..], sep);
      assert s == s[..i] + [sep] + s[i + 1..];
    }
  }

  /** Splitting a join of separator-free pieces gives back the pieces. */
  lemma {:induction false} JoinSplit(parts: seq<string>, sep: char)
    requires |parts| >= 1
    requires forall i :: 0 <= i < |parts| ==> sep !in parts[i]
    ensures Split(Join(parts, sep), sep) == parts
  {
    if |parts| > 1 {
      var first := parts[0];
      var rest := Join(parts[1..], sep);
      JoinSplit(parts[1..], sep);
      SplitAfterFirst(first, rest, sep);
      assert parts == [first] + parts[1..];
    }
  }

  /** A piece without the separator, then the separator: the split starts
      with that piece and goes on with the split of what follows. */
  lemma {:induction false} SplitAfterFirst(first: string, rest: string, sep: char)
    requires sep !in first
    ensures Split(first + [sep] + rest, sep) == [first] + Split(rest, sep)
  {
    var s := first + [sep] + rest;
    assert s[..|first|] == first;
    IndexOfUnique(s, sep, |first|);
    assert s[|first| + 1..] == rest;
  }

  /** The first occurrence is the only one with none before it. */
  lemma {:induction false} IndexOfUnique(s: string, c: char, k: nat)
    requires k < |s| && s[k] == c && c !in s[..k]
    ensures IndexOf(s, c) == k
  {
  }

  /** `key.split('.')` has exactly two parts precisely when the key is
      `a.b` with no further dot in `a` or in `b`. */
  lemma {:induction false} SplitInTwo(key: string, sep: char, a: string, b: string)
    ensures Split(key, sep) == [a, b] <==> (sep !in a && sep !in b && key == a + [sep] + b)
  {
    if sep !in a && sep !in b && key == a + [sep] + b {
      JoinSplit([a, b], sep);
    }
    if Split(key, sep) == [a, b] {
      SplitJoin(key, sep);
      assert Split(key, sep)[0] == a && Split(key, sep)[1] == b;
    }
  }

  /** `s.replace(from, to)` for single characters. */
  function ReplaceChar(s: string, from: char, to: char): (r: string)
    ensures |r| == |s|
    ensures forall i :: 0 <= i < |s| ==> r[i] == (if s[i] == from then to else s[i])
  {
    if s == [] then [] else [if s[0] == from then to else s[0]] + ReplaceChar(s[1..], from, to)
  }

  /** `s[:n]`: at most the first `n` characters. */
  function Truncate(s: string, n: nat): (r: string)
    ensures r <= s
    ensures |r| == if |s| <= n then |s| else n
  {
    if |s| <= n then s else s[..n]
  }

  predicate IsUpper(c: char) { 'A' <= c <= 'Z' }
  predicate IsLower(c: char) { 'a' <= c <= 'z' }

  function ToUpper(c: char): (u: char)
    ensures !IsLower(u)
  {
    if IsLower(c) then (c as int - 32) as char else c
  }

  function ToLower(c: char): (l: char)
    ensures !IsUpper(l)
  {
    if IsUpper(c) then (c as int + 32) as char else c
  }

  function LowerAll(s: string): (r: string)
    ensures |r| == |s|
    ensures forall i :: 0 <= i < |s| ==> r[i] == ToLower(s[i])
  {
    if s == [] then [] else [ToLower(s[0])] + LowerAll(s[1..])
  }

  /** `s.capitalize()` (ASCII letters only): the first character in upper
      case, every other in lower case. */
  function Capitalize(s: string): (r: string)
    ensures |r| == |s|
    ensures s != [] ==> r[0] == ToUpper(s[0]) && !IsLower(r[0])
    ensures forall i :: 1 <= i < |s| ==> r[i] == ToLower(s[i]) && !IsUpper(r[i])
  {
    if s == [] then [] else [ToUpper(s[0])] + LowerAll(s[1..])
  }

  /** `str(Path(p).parent)` for a POSIX path without repeated or trailing
      slashes: the text before the last `/`, `/` for a file at the root and
      `.` for a bare file name. */
  function Parent(p: string): (d: string)
    ensures '/' !in p ==> d == "."
    ensures '/' in p ==> var k := LastIndexOf(p, '/');
      '/' !in p[k + 1..] && (if k == 0 then d == "/" else d == p[..k])
  {
    if '/' !in p then "."
    else
      var k := LastIndexOf(p, '/');
      if k == 0 then "/" else p[..k]
  }

  /** The parent of `dir/name` is `dir` whenever `name` holds no slash. */
  lemma {:induction false} ParentOfChild(dir: string, name: string)
    requires dir != [] && '/' !in name
    ensures Parent(dir + "/" + name) == dir
  {
    var p := dir + "/" + name;
    var k := LastIndexOf(p, '/');
    assert p[|dir|] == '/';
    assert p[|dir| + 1..] == name;
    assert p[..|dir|] == dir;
  }
}
