/** The parts of Python's `str` the core relies on: `split`, `rsplit`, `in` on substrings, prefixes and suffixes. */
module Strings {

  /** `sep.join(parts)` for a one-character separator. */
  function Join(parts: seq<string>, sep: char): string
  {
    if |parts| == 0 then ""
    else if |parts| == 1 then parts[0]
    else parts[0] + [sep] + Join(parts[1..], sep)
  }

  /** `s.split(sep)` for a one-character separator: every piece between two separators, empty pieces included. */
  function Split(s: string, sep: char): (r: seq<string>)
    ensures |r| >= 1
    ensures forall i :: 0 <= i < |r| ==> sep !in r[i]
    ensures Join(r, sep) == s
    decreases |s|
  {
    if |s| == 0 then [""]
    else
      var rest := Split(s[1..], sep);
      if s[0] == sep then [""] + rest
      else [[s[0]] + rest[0]] + rest[1..]
  }

  /** Index of the last occurrence of `c` in `s`, as `str.rfind` finds it. */
  function LastIndex(s: string, c: char): (i: nat)
    requires c in s
    ensures i < |s| && s[i] == c
    ensures c !in s[i + 1..]
  {
    if s[|s| - 1] == c then |s| - 1 else LastIndex(s[..|s| - 1], c)
  }

  /** `s.rsplit(sep, maxsplit)`: split at the last `maxsplit` separators only, working from the right. */
  function RSplit(s: string, sep: char, maxsplit: nat): (r: seq<string>)
    ensures |r| >= 1
    decreases maxsplit
  {
    if maxsplit == 0 || sep !in s then [s]
    else
      var i := LastIndex(s, sep);
      RSplit(s[..i], sep, maxsplit - 1) + [s[i + 1..]]
  }

  /** `sub in s` for strings. */
  predicate Contains(s: string, sub: string)
    decreases |s|
  {
    StartsWith(s, sub) || (|s| > 0 && Contains(s[1..], sub))
  }

  /** A string that contains `sub` holds its first character. */
  lemma {:induction false} ContainsFirst(s: string, sub: string)
    requires |sub| >= 1 && Contains(s, sub)
    ensures sub[0] in s
    decreases |s|
  {
    if StartsWith(s, sub) {
      assert s[0] == sub[0];
    } else {
      ContainsFirst(s[1..], sub);
      assert s[1..] <= s[1..];
      assert sub[0] in s[1..];
    }
  }

  predicate StartsWith(s: string, prefix: string)
  {
    |prefix| <= |s| && s[..|prefix|] == prefix
  }

  predicate EndsWith(s: string, suffix: string)
  {
    |suffix| <= |s| && s[|s| - |suffix|..] == suffix
  }

  lemma {:induction false} SplitNoSeparator(s: string, sep: char)
    requires sep !in s
    ensures Split(s, sep) == [s]
    decreases |s|
  {
    if |s| > 0 {
      SplitNoSeparator(s[1..], sep);
      assert [s[0]] + s[1..] == s;
    }
  }

  /** Splitting a string that is two strings joined by the separator splits each of them. */
  lemma {:induction false} SplitAppend(a: string, b: string, sep: char)
    ensures Split(a + [sep] + b, sep) == Split(a, sep) + Split(b, sep)
    decreases |a|
  {
    if |a| == 0 {
      assert (a + [sep] + b)[1..] == b;
    } else {
      assert (a + [sep] + b)[1..] == a[1..] + [sep] + b;
      SplitAppend(a[1..], b, sep);
    }
  }

  /** `split` undoes `join` when no part holds the separator. */
  lemma {:induction false} SplitJoin(parts: seq<string>, sep: char)
    requires |parts| >= 1
    requires forall i :: 0 <= i < |parts| ==> sep !in parts[i]
    ensures Split(Join(parts, sep), sep) == parts
    decreases |parts|
  {
    if |parts| == 1 {
      SplitNoSeparator(parts[0], sep);
    } else {
      SplitJoin(parts[1..], sep);
      SplitAppend(parts[0], Join(parts[1..], sep), sep);
      SplitNoSeparator(parts[0], sep);
    }
  }

  lemma JoinPrefix(parts: seq<string>, k: nat, sep: char)
    requires 1 <= k <= |parts|
    ensures Join(parts[..k], sep) + (if k < |parts| then [sep] + Join(parts[k..], sep) else "") == Join(parts, sep)
    decreases k
  {
    if k > 1 {
      JoinPrefix(parts[1..], k - 1, sep);
      assert parts[..k][1..] == parts[1..][..k - 1];
      assert parts[1..][k - 1..] == parts[k..];
    }
  }

  /** Appending text without a separator lengthens the last `split` piece and nothing else. */
  lemma SplitExtendLast(s: string, t: string, sep: char)
    requires sep !in t
    ensures Split(s + t, sep) == Split(s, sep)[..|Split(s, sep)| - 1] + [Split(s, sep)[|Split(s, sep)| - 1] + t]
  {
    if sep in s {
      var i := LastIndex(s, sep);
      SplitAtLast(s, sep);
      ExtendAfterSeparator(s[..i], s[i + 1..], t, sep);
      SplitAround(s, t, i);
    } else {
      SplitNoSeparator(s, sep);
      SplitNoSeparator(s + t, sep);
    }
  }

  lemma SplitAround(s: string, t: string, i: nat)
    requires i < |s|
    ensures s + t == s[..i] + [s[i]] + (s[i + 1..] + t)
  {
    assert s == s[..i] + [s[i]] + s[i + 1..];
  }

  lemma ExtendAfterSeparator(a: string, b: string, t: string, sep: char)
    requires sep !in b && sep !in t
    ensures Split(a + [sep] + (b + t), sep) == Split(a, sep) + [b + t]
  {
    SplitAppend(a, b + t, sep);
    SplitNoSeparator(b + t, sep);
  }

  /** How many of the `split` pieces the first piece of `rsplit(sep, n)` keeps. */
  function KeptFields(count: nat, n: nat): nat
  {
    if count - n >= 1 then count - n else 1
  }

  /** Splitting at the last separator splits off the last `split` piece. */
  lemma SplitAtLast(s: string, sep: char)
    requires sep in s
    ensures var i := LastIndex(s, sep);
            Split(s, sep) == Split(s[..i], sep) + [s[i + 1..]]
  {
    var i := LastIndex(s, sep);
    assert s == s[..i] + [sep] + s[i + 1..];
    SplitAppend(s[..i], s[i + 1..], sep);
    SplitNoSeparator(s[i + 1..], sep);
  }

  /** The first piece of `rsplit(sep, n)` is the join of all `split` pieces except the last `n`, and at least the first. */
  lemma {:induction false} RSplitHead(s: string, sep: char, n: nat)
    ensures RSplit(s, sep, n)[0] == Join(Split(s, sep)[..KeptFields(|Split(s, sep)|, n)], sep)
    decreases n
  {
    var fields := Split(s, sep);
    if sep !in s {
      SplitNoSeparator(s, sep);
    } else if n == 0 {
      assert fields[..|fields|] == fields;
    } else {
      var i := LastIndex(s, sep);
      var a := s[..i];
      SplitAtLast(s, sep);
      var fa := Split(a, sep);
      assert |fields| == |fa| + 1;
      RSplitHead(a, sep, n - 1);
      var k := KeptFields(|fa|, n - 1);
      assert k == KeptFields(|fields|, n);
      assert fields[..k] == fa[..k];
      assert RSplit(s, sep, n)[0] == RSplit(a, sep, n - 1)[0];
    }
  }

  lemma JoinFour(a: string, b: string, c: string, d: string)
    ensures Join([a, b, c, d], '.') == a + "." + b + "." + c + "." + d
  {
    assert [a, b, c, d][1..] == [b, c, d];
    assert [b, c, d][1..] == [c, d];
    assert [c, d][1..] == [d];
    assert Join([c, d], '.') == c + "." + d;
    assert Join([b, c, d], '.') == b + "." + (c + "." + d);
  }

  lemma JoinSix(a: string, b: string, c: string, d: string, e: string, f: string)
    ensures Join([a, b, c, d, e, f], '.') == a + "." + b + "." + c + "." + d + "." + e + "." + f
  {
    assert [a, b, c, d, e, f][1..] == [b, c, d, e, f];
    assert [b, c, d, e, f][1..] == [c, d, e, f];
    JoinFour(c, d, e, f);
  }

  /* ---------------------------------------------------------------------------------------- */
  /* Python's order on strings and `sorted`                                                    */
  /* ---------------------------------------------------------------------------------------- */

  /** Python's `a <= b` on strings: code point by code point, a proper prefix first. */
  predicate LexLessEq(a: string, b: string)
    decreases |a|
  {
    |a| == 0 || (|b| > 0 && (a[0] < b[0] || (a[0] == b[0] && LexLessEq(a[1..], b[1..]))))
  }

  lemma {:induction false} LexTotal(a: string, b: string)
    ensures LexLessEq(a, b) || LexLessEq(b, a)
    decreases |a|
  {
    if |a| > 0 && |b| > 0 && a[0] == b[0] {
      LexTotal(a[1..], b[1..]);
    }
  }

  lemma {:induction false} LexAntisymmetric(a: string, b: string)
    requires LexLessEq(a, b) && LexLessEq(b, a)
    ensures a == b
    decreases |a|
  {
    if |a| > 0 {
      LexAntisymmetric(a[1..], b[1..]);
      assert a == [a[0]] + a[1..] && b == [b[0]] + b[1..];
    }
  }

  lemma {:induction false} LexTransitive(a: string, b: string, c: string)
    requires LexLessEq(a, b) && LexLessEq(b, c)
    ensures LexLessEq(a, c)
    decreases |a|
  {
    if |a| > 0 && a[0] == b[0] && b[0] == c[0] {
      LexTransitive(a[1..], b[1..], c[1..]);
    }
  }

  predicate SortedStrings(s: seq<string>)
  {
    forall i, j :: 0 <= i < j < |s| ==> LexLessEq(s[i], s[j])
  }

  /** One step of insertion: `x` goes before the first element it does not exceed. */
  function Insert(x: string, s: seq<string>): seq<string>
    decreases |s|
  {
    if |s| == 0 then [x]
    else if LexLessEq(x, s[0]) then [x] + s
    else [s[0]] + Insert(x, s[1..])
  }

  /** Inserting adds `x` and keeps a sorted list sorted. */
  lemma {:induction false} InsertFacts(x: string, s: seq<string>)
    ensures multiset(Insert(x, s)) == multiset(s) + multiset{x}
    ensures SortedStrings(s) ==> SortedStrings(Insert(x, s))
    decreases |s|
  {
    if |s| > 0 {
      assert s == [s[0]] + s[1..];
      if LexLessEq(x, s[0]) {
        if SortedStrings(s) {
          SortedInFront(x, s);
        }
      } else {
        InsertFacts(x, s[1..]);
        if SortedStrings(s) {
          LexTotal(x, s[0]);
          SortedBehindHead(x, s, Insert(x, s[1..]));
        }
      }
    }
  }

  lemma SortedInFront(x: string, s: seq<string>)
    requires |s| > 0 && SortedStrings(s) && LexLessEq(x, s[0])
    ensures SortedStrings([x] + s)
  {
    var r := [x] + s;
    forall i, j | 0 <= i < j < |r|
      ensures LexLessEq(r[i], r[j])
    {
      if i > 0 {
        assert r[i] == s[i - 1] && r[j] == s[j - 1];
      } else if j > 1 {
        LexTransitive(x, s[0], s[j - 1]);
      }
    }
  }

  /** A sorted list holding the tail of `s` and `x`, put behind the head of `s`, stays sorted. */
  lemma SortedBehindHead(x: string, s: seq<string>, u: seq<string>)
    requires |s| > 0 && SortedStrings(s) && LexLessEq(s[0], x)
    requires multiset(u) == multiset(s[1..]) + multiset{x} && SortedStrings(u)
    ensures SortedStrings([s[0]] + u)
  {
    var t := s[1..];
    forall k | 0 <= k < |u|
      ensures LexLessEq(s[0], u[k])
    {
      var y := u[k];
      assert y in multiset(u);
      if y != x {
        assert y in multiset(t);
        var m :| 0 <= m < |t| && t[m] == y;
        assert s[m + 1] == y;
      }
    }
    var r := [s[0]] + u;
    forall i, j | 0 <= i < j < |r|
      ensures LexLessEq(r[i], r[j])
    {
      if i > 0 {
        assert r[i] == u[i - 1] && r[j] == u[j - 1];
      } else {
        assert r[j] == u[j - 1];
      }
    }
  }

  /** `sorted(s)` for strings: the same strings, in Python's order. */
  function SortStrings(s: seq<string>): (r: seq<string>)
    ensures SortedStrings(r) && multiset(r) == multiset(s)
  {
    if |s| == 0 then []
    else
      var init := s[..|s| - 1];
      assert s == init + [s[|s| - 1]];
      InsertFacts(s[|s| - 1], SortStrings(init));
      Insert(s[|s| - 1], SortStrings(init))
  }

  /** Sorted lists holding the same strings start with the same one. */
  lemma SortedHeads(a: seq<string>, b: seq<string>)
    requires SortedStrings(a) && SortedStrings(b) && multiset(a) == multiset(b) && |a| > 0
    ensures |b| > 0 && a[0] == b[0]
  {
    assert a[0] in multiset(b);
    assert b[0] in multiset(a);
    var m :| 0 <= m < |b| && b[m] == a[0];
    var n :| 0 <= n < |a| && a[n] == b[0];
    if m > 0 && n > 0 {
      LexAntisymmetric(a[0], b[0]);
    }
  }

  lemma TailMultiset(s: seq<string>)
    requires |s| > 0
    ensures multiset(s[1..]) == multiset(s) - multiset{s[0]}
    ensures SortedStrings(s) ==> SortedStrings(s[1..])
  {
    assert s == [s[0]] + s[1..];
  }

  /** Two sorted lists holding the same strings are the same list. */
  lemma {:induction false} SortedUnique(a: seq<string>, b: seq<string>)
    requires SortedStrings(a) && SortedStrings(b) && multiset(a) == multiset(b)
    ensures a == b
    decreases |a|
  {
    if |a| == 0 {
      assert |multiset(b)| == 0;
    } else {
      SortedHeads(a, b);
      TailMultiset(a);
      TailMultiset(b);
      SortedUnique(a[1..], b[1..]);
      assert a == [a[0]] + a[1..] && b == [b[0]] + b[1..];
    }
  }
}
