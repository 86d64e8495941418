/**
 * Shared text helpers: the parts of Kotlin's String API that the app relies
 * on (case folding, `trim`, `isBlank`, `contains`, `take`, `split`,
 * `joinToString`), restricted to the ASCII range, plus an Option type for
 * Kotlin's nullable values.
 */
module Text {

  datatype Option<+T> = None | Some(value: T)
  {
    /** Kotlin's `x ?: d`. */
    function OrElse(d: T): T
    {
      if Some? then value else d
    }
  }

  predicate IsUpper(c: char) { 'A' <= c <= 'Z' }
  predicate IsLower(c: char) { 'a' <= c <= 'z' }
  predicate IsDigit(c: char) { '0' <= c <= '9' }

  /** `Char.isWhitespace()` on the JVM, for ASCII: tab .. carriage return, the four
      information separators and the space. */
  predicate IsSpace(c: char)
  {
    c == ' ' || 9 <= c as int <= 13 || 28 <= c as int <= 31
  }

  function LowerChar(c: char): (r: char)
    ensures !IsUpper(r)
    ensures IsUpper(c) ==> IsLower(r)
    ensures !IsUpper(c) ==> r == c
  {
    if IsUpper(c) then (c as int + 32) as char else c
  }

  function UpperChar(c: char): (r: char)
    ensures !IsLower(r)
    ensures IsLower(c) ==> IsUpper(r)
    ensures !IsLower(c) ==> r == c
  {
    if IsLower(c) then (c as int - 32) as char else c
  }

  /** `lowercase()` */
  function Lower(s: string): (r: string)
    ensures |r| == |s|
    ensures forall i :: 0 <= i < |s| ==> r[i] == LowerChar(s[i])
  {
    seq(|s|, i requires 0 <= i < |s| => LowerChar(s[i]))
  }

  /** `uppercase()` */
  function Upper(s: string): (r: string)
    ensures |r| == |s|
    ensures forall i :: 0 <= i < |s| ==> r[i] == UpperChar(s[i])
  {
    seq(|s|, i requires 0 <= i < |s| => UpperChar(s[i]))
  }

  /** `a.equals(b, ignoreCase = true)` */
  predicate EqualsIgnoreCase(a: string, b: string)
  {
    Lower(a) == Lower(b)
  }

  /** A string without upper-case letters is its own lower case. */
  lemma LowerOfLowercase(s: string)
    requires forall i :: 0 <= i < |s| ==> !IsUpper(s[i])
    ensures Lower(s) == s
  {
  }

  /** Two strings whose case-folded characters differ at some position are
      different even ignoring case. */
  lemma DifferAt(a: string, b: string, i: int)
    requires 0 <= i < |a| && 0 <= i < |b|
    requires LowerChar(a[i]) != LowerChar(b[i])
    ensures !EqualsIgnoreCase(a, b)
  {
    assert Lower(a)[i] != Lower(b)[i];
  }

  lemma DifferInLength(a: string, b: string)
    requires |a| != |b|
    ensures !EqualsIgnoreCase(a, b)
  {
    assert |Lower(a)| != |Lower(b)|;
  }

  /** `isBlank()` */
  predicate IsBlank(s: string)
  {
    forall i :: 0 <= i < |s| ==> IsSpace(s[i])
  }

  function TrimStart(s: string): (r: string)
    ensures |r| <= |s| && r == s[|s| - |r|..]
    ensures IsBlank(s[..|s| - |r|])
    ensures r == [] || !IsSpace(r[0])
    decreases |s|
  {
    if |s| > 0 && IsSpace(s[0]) then
      var r := TrimStart(s[1..]);
      assert s[..|s| - |r|] == [s[0]] + s[1..][..|s| - 1 - |r|];
      r
    else s
  }

  function TrimEnd(s: string): (r: string)
    ensures |r| <= |s| && r == s[..|r|]
    ensures IsBlank(s[|r|..])
    ensures r == [] || !IsSpace(r[|r| - 1])
    decreases |s|
  {
    if |s| > 0 && IsSpace(s[|s| - 1]) then
      var r := TrimEnd(s[..|s| - 1]);
      assert s[|r|..] == s[..|s| - 1][|r|..] + [s[|s| - 1]];
      r
    else s
  }

  /** `trim()`: the longest middle part of `s` that neither starts nor ends
      with whitespace, what is cut off on either side being whitespace. */
  function Trim(s: string): (r: string)
    ensures |r| <= |s|
    ensures r == [] || (!IsSpace(r[0]) && !IsSpace(r[|r| - 1]))
    ensures r == [] <==> IsBlank(s)
  {
    var t := TrimStart(s);
    var r := TrimEnd(t);
    assert r != [] ==> r[0] == t[0];
    assert r == [] ==> IsBlank(s) by {
      if r == [] {
        assert s == s[..|s| - |t|] + t;
        assert IsBlank(t[|r|..]);
      }
    }
    r
  }

  /** Trimming only removes whitespace at the ends: a string already free
      of surrounding whitespace is its own trim, whatever blanks surround it. */
  lemma {:induction false} TrimSurrounded(pre: string, t: string, post: string)
    requires IsBlank(pre) && IsBlank(post)
    requires t == [] || (!IsSpace(t[0]) && !IsSpace(t[|t| - 1]))
    ensures Trim(pre + t + post) == t
  {
    if t == [] {
      assert pre + t + post == pre + post;
      assert IsBlank(pre + t + post);
    } else {
      assert pre + t + post == pre + (t + post);
      TrimStartBlankPrefix(pre, t + post);
      TrimEndBlankSuffix(t, post);
    }
  }

  /** Blanks typed around a string already free of surrounding whitespace
      do not change its trim. */
  lemma TrimPadded(pre: string, t: string, post: string)
    requires IsBlank(pre) && IsBlank(post)
    requires t == [] || (!IsSpace(t[0]) && !IsSpace(t[|t| - 1]))
    ensures Trim(pre + t + post) == Trim(t) == t
  {
    TrimSurrounded(pre, t, post);
    assert "" + t + "" == t;
    TrimSurrounded("", t, "");
  }

  lemma {:induction false} TrimStartBlankPrefix(pre: string, rest: string)
    requires IsBlank(pre)
    requires rest == [] || !IsSpace(rest[0])
    ensures TrimStart(pre + rest) == rest
    decreases |pre|
  {
    if pre == [] {
      assert pre + rest == rest;
    } else {
      assert (pre + rest)[1..] == pre[1..] + rest;
      TrimStartBlankPrefix(pre[1..], rest);
    }
  }

  lemma {:induction false} TrimEndBlankSuffix(t: string, post: string)
    requires IsBlank(post)
    requires t != [] && !IsSpace(t[|t| - 1])
    ensures TrimEnd(t + post) == t
    decreases |post|
  {
    if post == [] {
      assert t + post == t;
    } else {
      assert (t + post)[..|t + post| - 1] == t + post[..|post| - 1];
      TrimEndBlankSuffix(t, post[..|post| - 1]);
    }
  }

  /** `s.contains(q)`: `q` occurs in `s` at some position (the empty string
      occurs everywhere). */
  predicate Contains(s: string, q: string)
  {
    exists i | 0 <= i <= |s| - |q| :: OccursAt(s, q, i)
  }

  predicate OccursAt(s: string, q: string, i: int)
  {
    0 <= i <= |s| - |q| && s[i..i + |q|] == q
  }

  /** `s.take(n)` for n >= 0 */
  function Take(s: string, n: nat): (r: string)
    ensures |r| == if |s| < n then |s| else n
    ensures r == s[..|r|]
  {
    if |s| < n then s else s[..n]
  }

  /** `joinToString(sep)` */
  function Join(parts: seq<string>, sep: string): (r: string)
    ensures parts == [] ==> r == []
    ensures |parts| == 1 ==> r == parts[0]
  {
    if |parts| == 0 then []
    else if |parts| == 1 then parts[0]
    else parts[0] + sep + Join(parts[1..], sep)
  }

  /** `s.split(d)` for a one-character delimiter: the pieces between the
      delimiters, including empty ones; the result is never empty. */
  function Split(s: string, d: char): (r: seq<string>)
    ensures |r| >= 1
    ensures forall k :: 0 <= k < |r| ==> d !in r[k]
    decreases |s|
  {
    if d !in s then [s]
    else
      var i := IndexOf(s, d);
      [s[..i]] + Split(s[i + 1..], d)
  }

  /** Index of the first occurrence of `d` in `s`. */
  function IndexOf(s: string, d: char): (i: nat)
    requires d in s
    ensures i < |s| && s[i] == d && d !in s[..i]
  {
    if s[0] == d then 0 else
      assert d in s[1..] by { assert s == [s[0]] + s[1..]; }
      1 + IndexOf(s[1..], d)
  }

  /** Number of occurrences of `d` in `s`. */
  function Count(s: string, d: char): (n: nat)
    ensures n <= |s|
    ensures n == 0 <==> d !in s
  {
    if s == [] then 0 else (if s[0] == d then 1 else 0) + Count(s[1..], d)
  }

  lemma {:induction false} CountAppend(a: string, b: string, d: char)
    ensures Count(a + b, d) == Count(a, d) + Count(b, d)
    decreases |a|
  {
    if a == [] {
      assert a + b == b;
    } else {
      assert (a + b)[1..] == a[1..] + b;
      CountAppend(a[1..], b, d);
    }
  }

  /** Splitting on a one-character delimiter yields one more piece than
      there are delimiters. */
  lemma {:induction false} SplitPieces(s: string, d: char)
    ensures |Split(s, d)| == Count(s, d) + 1
    decreases |s|
  {
    if d in s {
      var i := IndexOf(s, d);
      assert s == s[..i] + [d] + s[i + 1..];
      CountAppend(s[..i] + [d], s[i + 1..], d);
      CountAppend(s[..i], [d], d);
      SplitPieces(s[i + 1..], d);
    }
  }

  /** Kotlin's `list - set`: the entries not in `s`, in order, repeats kept. */
  function Minus<T(==,!new)>(xs: seq<T>, s: set<T>): (r: seq<T>)
    ensures forall x :: x in r <==> x in xs && x !in s
    ensures |r| <= |xs|
  {
    if xs == [] then []
    else (if xs[0] in s then [] else [xs[0]]) + Minus(xs[1..], s)
  }

  /** Removing a set that covers the list leaves nothing. */
  lemma {:induction false} MinusAll<T(!new)>(xs: seq<T>, s: set<T>)
    requires forall x :: x in xs ==> x in s
    ensures Minus(xs, s) == []
    decreases |xs|
  {
    if xs != [] {
      MinusAll(xs[1..], s);
    }
  }

  function NatToString(n: nat): (r: string)
    ensures |r| >= 1
    ensures forall i :: 0 <= i < |r| ==> IsDigit(r[i])
    decreases n
  {
    if n < 10 then [Digit(n)] else NatToString(n / 10) + [Digit(n % 10)]
  }

  function Digit(n: nat): (c: char)
    requires n < 10
    ensures IsDigit(c)
  {
    ('0' as int + n) as char
  }
}
