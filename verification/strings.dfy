/** The handful of JavaScript string operations the core relies on, over
    `seq<char>`: `Array.prototype.join`, `String.prototype.split` with a
    one-character separator, `repeat`, `trim`, `replace` with a string pattern,
    and the decimal rendering of a natural number. */
module Strings {

  // ---------------------------------------------------------------------------
  // join / split
  // ---------------------------------------------------------------------------

  /** `parts.join(sep)`. */
  function Join(parts: seq<string>, sep: string): string
  {
    if |parts| == 0 then ""
    else if |parts| == 1 then parts[0]
    else parts[0] + sep + Join(parts[1..], sep)
  }

  /** Index of the first `c` in `s`, or -1. */
  function IndexOfChar(s: string, c: char): (k: int)
    ensures -1 <= k < |s|
    ensures k == -1 <==> c !in s
    ensures 0 <= k ==> s[k] == c && c !in s[..k]
  {
    if |s| == 0 then -1
    else if s[0] == c then 0
    else
      var k := IndexOfChar(s[1..], c);
      assert s[1..][..k + 1] == s[1..k + 2] by { }
      if k == -1 then -1 else k + 1
  }

  /** `s.split(c)` for a one-character separator: the maximal `c`-free pieces. */
  function Split(s: string, c: char): (r: seq<string>)
    ensures |r| >= 1
    ensures forall i :: 0 <= i < |r| ==> c !in r[i]
    decreases |s|
  {
    var k := IndexOfChar(s, c);
    if k == -1 then [s] else [s[..k]] + Split(s[k + 1..], c)
  }

  /** Where the first `c` of a concatenation lies: in the left part if it has
      one, otherwise shifted into the right part. */
  lemma {:induction false} IndexOfCharConcat(a: string, t: string, c: char)
    ensures IndexOfChar(a + t, c) ==
              if c in a then IndexOfChar(a, c)
              else if IndexOfChar(t, c) == -1 then -1
              else |a| + IndexOfChar(t, c)
  {
    if a != [] {
      assert (a + t)[0] == a[0];
      if a[0] != c {
        assert (a + t)[1..] == a[1..] + t;
        IndexOfCharConcat(a[1..], t, c);
        assert c in a <==> c in a[1..] by {
          assert a == [a[0]] + a[1..];
        }
      }
    } else {
      assert a + t == t;
    }
  }

  /** The separator's first occurrence in `a + [c] + b` is right after `a`. */
  lemma IndexOfCharAfterPrefix(a: string, c: char, b: string)
    requires c !in a
    ensures IndexOfChar(a + [c] + b, c) == |a|
  {
    assert a + [c] + b == a + ([c] + b);
    IndexOfCharConcat(a, [c] + b, c);
  }

  /** Splitting a joined list of separator-free parts gives the parts back. */
  lemma {:induction false} SplitJoin(parts: seq<string>, c: char)
    requires |parts| >= 1
    requires forall i :: 0 <= i < |parts| ==> c !in parts[i]
    ensures Split(Join(parts, [c]), c) == parts
  {
    if |parts| == 1 {
      assert IndexOfChar(parts[0], c) == -1;
    } else {
      var rest := Join(parts[1..], [c]);
      var s := parts[0] + [c] + rest;
      JoinCons(parts[0], parts[1..], [c]);
      assert parts == [parts[0]] + parts[1..];
      IndexOfCharAfterPrefix(parts[0], c, rest);
      SplitAtFirst(s, c);
      assert s[..|parts[0]|] == parts[0];
      assert s[|parts[0]| + 1..] == rest;
      SplitJoin(parts[1..], c);
    }
  }

  /** Joining the pieces of a split restores the original string. */
  lemma {:induction false} JoinSplit(s: string, c: char)
    ensures Join(Split(s, c), [c]) == s
    decreases |s|
  {
    var k := IndexOfChar(s, c);
    if k != -1 {
      var t := s[k + 1..];
      JoinSplit(t, c);
      SplitAtFirst(s, c);
      Around(s, k);
      JoinCons(s[..k], Split(t, c), [c]);
    }
  }

  /** A split at the first separator: the piece before it, then the split
      of the rest. */
  lemma SplitAtFirst(s: string, c: char)
    requires c in s
    ensures var k := IndexOfChar(s, c);
            Split(s, c) == [s[..k]] + Split(s[k + 1..], c)
  {
  }

  /** A sequence is what precedes position k, the element there, and what
      follows. */
  lemma Around<T>(s: seq<T>, k: int)
    requires 0 <= k < |s|
    ensures s == s[..k] + [s[k]] + s[k + 1..]
  {
  }

  /** Joining a list with a first element in front of a non-empty rest. */
  lemma JoinCons(x: string, rest: seq<string>, sep: string)
    requires |rest| >= 1
    ensures Join([x] + rest, sep) == x + sep + Join(rest, sep)
  {
    assert ([x] + rest)[1..] == rest;
  }

  /** Joining two non-empty lists is joining each and putting a separator
      between them. */
  lemma {:induction false} JoinAppend(a: seq<string>, b: seq<string>, sep: string)
    requires |a| >= 1 && |b| >= 1
    ensures Join(a + b, sep) == Join(a, sep) + sep + Join(b, sep)
    decreases |a|
  {
    assert (a + b)[0] == a[0];
    if |a| == 1 {
      assert (a + b)[1..] == b;
    } else {
      assert (a + b)[1..] == a[1..] + b;
      JoinAppend(a[1..], b, sep);
    }
  }

  /** `s.endsWith(suffix)`. */
  predicate EndsWith(s: string, suffix: string)
  {
    |suffix| <= |s| && s[|s| - |suffix|..] == suffix
  }

  // ---------------------------------------------------------------------------
  // split('/').pop()
  // ---------------------------------------------------------------------------

  /** `s.split(c).pop()`: the piece after the last separator. */
  function LastPiece(s: string, c: char): (r: string)
    ensures c !in r
    ensures c !in s ==> r == s
  {
    var pieces := Split(s, c);
    pieces[|pieces| - 1]
  }

  /** Whatever precedes the last separator is dropped by `split(c).pop()`. */
  lemma {:induction false} LastPieceAfterSeparator(a: string, c: char, b: string)
    requires c !in b
    ensures LastPiece(a + [c] + b, c) == b
    decreases |a|
  {
    var s := a + [c] + b;
    if c !in a {
      IndexOfCharAfterPrefix(a, c, b);
      assert s[..|a|] == a && s[|a| + 1..] == b;
      assert IndexOfChar(b, c) == -1;
      assert Split(s, c) == [a] + [b];
    } else {
      var k := IndexOfChar(a, c);
      IndexOfCharConcat(a, [c] + b, c);
      assert s == a + ([c] + b);
      var a' := a[k + 1..];
      assert s[..k] == a[..k];
      assert s[k + 1..] == a' + [c] + b;
      LastPieceAfterSeparator(a', c, b);
      assert Split(s, c) == [a[..k]] + Split(a' + [c] + b, c);
    }
  }

  // ---------------------------------------------------------------------------
  // replace (string pattern: first occurrence only)
  // ---------------------------------------------------------------------------

  predicate OccursAt(s: string, pat: string, i: int)
  {
    0 <= i && i + |pat| <= |s| && s[i..i + |pat|] == pat
  }

  /** Index of the first occurrence of `pat` in `s` at or after `from`, or -1. */
  function IndexOfFrom(s: string, pat: string, from: nat): (k: int)
    requires from <= |s|
    ensures k == -1 || (from <= k && OccursAt(s, pat, k))
    ensures forall j :: from <= j && (k == -1 || j < k) ==> !OccursAt(s, pat, j)
    decreases |s| - from
  {
    if OccursAt(s, pat, from) then from
    else if from == |s| then -1
    else IndexOfFrom(s, pat, from + 1)
  }

  /** `s.indexOf(pat)`. */
  function IndexOf(s: string, pat: string): (k: int)
    ensures k == -1 || OccursAt(s, pat, k)
    ensures forall j :: 0 <= j && (k == -1 || j < k) ==> !OccursAt(s, pat, j)
  {
    IndexOfFrom(s, pat, 0)
  }

  /** `s.replace(pat, rep)` with a string pattern: only the first occurrence
      is replaced. */
  function ReplaceFirst(s: string, pat: string, rep: string): (r: string)
    ensures IndexOf(s, pat) == -1 ==> r == s
    ensures IndexOf(s, pat) != -1 ==>
              var k := IndexOf(s, pat);
              r == s[..k] + rep + s[k + |pat|..]
  {
    var k := IndexOf(s, pat);
    if k == -1 then s else s[..k] + rep + s[k + |pat|..]
  }

  // ---------------------------------------------------------------------------
  // repeat
  // ---------------------------------------------------------------------------

  /** `s.repeat(n)`. */
  function Repeat(s: string, n: nat): (r: string)
    ensures |r| == n * |s|
  {
    if n == 0 then "" else s + Repeat(s, n - 1)
  }

  // ---------------------------------------------------------------------------
  // trim
  // ---------------------------------------------------------------------------

  /** ECMAScript WhiteSpace and LineTerminator code points, which `trim`
      removes. */
  predicate IsSpace(c: char)
  {
    || c == '\t' || c == '\n' || c == '\U{000B}' || c == '\U{000C}' || c == '\r'
    || c == ' ' || c == '\U{00A0}' || c == '\U{1680}'
    || ('\U{2000}' <= c <= '\U{200A}')
    || c == '\U{2028}' || c == '\U{2029}' || c == '\U{202F}' || c == '\U{205F}'
    || c == '\U{3000}' || c == '\U{FEFF}'
  }

  predicate AllSpace(s: string)
  {
    forall k :: 0 <= k < |s| ==> IsSpace(s[k])
  }

  /** No leading or trailing white space. */
  predicate Trimmed(s: string)
  {
    s == [] || (!IsSpace(s[0]) && !IsSpace(s[|s| - 1]))
  }

  function TrimStart(s: string): (r: string)
    ensures |r| <= |s| && r == s[|s| - |r|..]
    ensures AllSpace(s[..|s| - |r|])
    ensures r == [] || !IsSpace(r[0])
  {
    if s == [] || !IsSpace(s[0]) then s
    else
      var r := TrimStart(s[1..]);
      assert s[..|s| - |r|] == [s[0]] + s[1..][..|s[1..]| - |r|];
      r
  }

  function TrimEnd(s: string): (r: string)
    ensures |r| <= |s| && r == s[..|r|]
    ensures AllSpace(s[|r|..])
    ensures r == [] || !IsSpace(r[|r| - 1])
  {
    if s == [] || !IsSpace(s[|s| - 1]) then s
    else
      var r := TrimEnd(s[..|s| - 1]);
      assert s[|r|..] == s[..|s| - 1][|r|..] + [s[|s| - 1]];
      r
  }

  /** `s.trim()`. */
  function Trim(s: string): (r: string)
    ensures Trimmed(r)
    ensures |r| <= |s|
    ensures exists i, j :: 0 <= i <= j <= |s| && r == s[i..j] && AllSpace(s[..i]) && AllSpace(s[j..])
  {
    var t := TrimStart(s);
    var r := TrimEnd(t);
    assert r == [] || r[0] == t[0];
    var i, j := |s| - |t|, |s| - |t| + |r|;
    assert r == s[i..j];
    assert s[j..] == t[|r|..];
    r
  }

  /** `trim` strips exactly the surrounding white space: whatever text with no
      white space at its ends is padded with, `trim` gives that text back. */
  lemma {:induction false} TrimPadded(pre: string, core: string, post: string)
    requires AllSpace(pre) && AllSpace(post) && Trimmed(core)
    ensures Trim(pre + core + post) == core
  {
    var s := pre + core + post;
    assert s == pre + (core + post);
    if core == [] {
      assert core + post == post;
      TrimStartAllSpace(pre + post);
    } else {
      TrimStartPadded(pre, core + post);
      TrimEndPadded(core, post);
    }
  }

  lemma {:induction false} TrimStartAllSpace(s: string)
    requires AllSpace(s)
    ensures TrimStart(s) == []
  {
    if s != [] {
      TrimStartAllSpace(s[1..]);
    }
  }

  lemma {:induction false} TrimStartPadded(pre: string, rest: string)
    requires AllSpace(pre)
    requires rest == [] || !IsSpace(rest[0])
    ensures TrimStart(pre + rest) == rest
    decreases |pre|
  {
    if pre != [] {
      assert (pre + rest)[1..] == pre[1..] + rest;
      TrimStartPadded(pre[1..], rest);
    } else {
      assert pre + rest == rest;
    }
  }

  lemma {:induction false} TrimEndPadded(rest: string, post: string)
    requires AllSpace(post)
    requires rest == [] || !IsSpace(rest[|rest| - 1])
    ensures TrimEnd(rest + post) == rest
    decreases |post|
  {
    if post != [] {
      assert (rest + post)[..|rest + post| - 1] == rest + post[..|post| - 1];
      TrimEndPadded(rest, post[..|post| - 1]);
    } else {
      assert rest + post == rest;
    }
  }

  // ---------------------------------------------------------------------------
  // decimal rendering (`${n}` for a natural number)
  // ---------------------------------------------------------------------------

  predicate IsDigit(c: char)
  {
    '0' <= c <= '9'
  }

  function DigitChar(d: nat): (c: char)
    requires d < 10
    ensures IsDigit(c) && (c as int) - ('0' as int) == d
  {
    (('0' as int) + d) as char
  }

  /** The decimal text of `n`, as JavaScript renders a non-negative integer. */
  function NatToString(n: nat): (r: string)
    ensures |r| >= 1
    ensures forall k :: 0 <= k < |r| ==> IsDigit(r[k])
    ensures r[0] != '0' || r == "0"
  {
    if n < 10 then [DigitChar(n)] else NatToString(n / 10) + [DigitChar(n % 10)]
  }

  /** The value of a string of decimal digits. */
  function ParseNat(s: string): nat
    requires forall k :: 0 <= k < |s| ==> IsDigit(s[k])
  {
    if s == [] then 0
    else
      var last := s[|s| - 1];
      assert IsDigit(last);
      ParseNat(s[..|s| - 1]) * 10 + ((last as int) - ('0' as int))
  }

  /** Rendering a number and reading it back gives the number. */
  lemma {:induction false} ParseNatToString(n: nat)
    ensures ParseNat(NatToString(n)) == n
  {
    if n >= 10 {
      var r := NatToString(n);
      assert r[..|r| - 1] == NatToString(n / 10);
      ParseNatToString(n / 10);
    }
  }
}
