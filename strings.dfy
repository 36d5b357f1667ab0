/** The handful of Python `str` operations the checker relies on, with Python's
    semantics: `in` (substring test), `replace`, `split`, `join`, `strip` and
    `rstrip`. Strings are sequences of characters. */
module Strings {
  import opened Wrappers

  /** `s` begins with `pat`. */
  predicate StartsWith(s: string, pat: string) {
    |pat| <= |s| && s[..|pat|] == pat
  }

  /** A prefix test is a test on the first characters and then on the rests. */
  lemma StartsWithCons(s: string, pat: string)
    requires |s| > 0 && |pat| > 0
    ensures StartsWith(s, pat) <==> s[0] == pat[0] && StartsWith(s[1..], pat[1..])
  {
    if s[0] == pat[0] && StartsWith(s[1..], pat[1..]) {
      assert s[..|pat|] == [s[0]] + s[1..][..|pat| - 1];
    }
    if StartsWith(s, pat) {
      assert s[1..][..|pat| - 1] == s[..|pat|][1..];
    }
  }

  /** Python's `pat in s`. */
  predicate Contains(s: string, pat: string)
    decreases |s|
  {
    StartsWith(s, pat) || (|s| > 0 && Contains(s[1..], pat))
  }

  lemma {:induction false} ContainsIsLongEnough(s: string, pat: string)
    requires Contains(s, pat)
    ensures |pat| <= |s|
    decreases |s|
  {
    if !StartsWith(s, pat) {
      ContainsIsLongEnough(s[1..], pat);
    }
  }

  /** A window of `s` equal to `pat` witnesses `pat in s`, and conversely. */
  lemma {:induction false} ContainsAt(s: string, pat: string, i: nat)
    requires i + |pat| <= |s| && s[i..i + |pat|] == pat
    ensures Contains(s, pat)
    decreases i
  {
    if i > 0 {
      assert s[1..][i - 1..i - 1 + |pat|] == s[i..i + |pat|];
      ContainsAt(s[1..], pat, i - 1);
    }
  }

  /** A one-character pattern occurs exactly when that character does. */
  lemma {:induction false} ContainsChar(s: string, c: char)
    ensures Contains(s, [c]) <==> c in s
    decreases |s|
  {
    if |s| > 0 {
      ContainsChar(s[1..], c);
      assert s == [s[0]] + s[1..];
    }
  }

  /** Python's `s.find(pat)` for a non-empty pattern: the first window equal to `pat`. */
  function IndexOf(s: string, pat: string): (r: Option<nat>)
    requires |pat| > 0
    ensures r.Some? ==> r.value + |pat| <= |s| && s[r.value..r.value + |pat|] == pat
    ensures r.Some? ==> forall j :: 0 <= j < r.value ==> !StartsWith(s[j..], pat)
    ensures r.None? <==> !Contains(s, pat)
    decreases |s|
  {
    if |s| < |pat| then
      assert !Contains(s, pat) by {
        if Contains(s, pat) { ContainsIsLongEnough(s, pat); }
      }
      None
    else if s[..|pat|] == pat then Some(0)
    else
      match IndexOf(s[1..], pat)
      case None => None
      case Some(i) =>
        assert forall j :: 1 <= j < i + 1 ==> s[j..] == s[1..][j - 1..];
        Some(i + 1)
  }

  /** Python's `s.replace(pat, rep)` for a non-empty pattern: occurrences are
      found from left to right and do not overlap. */
  function Replace(s: string, pat: string, rep: string): string
    requires |pat| > 0
    decreases |s|
  {
    if |s| < |pat| then s
    else if s[..|pat|] == pat then rep + Replace(s[|pat|..], pat, rep)
    else [s[0]] + Replace(s[1..], pat, rep)
  }

  /** Text without the pattern is left exactly as it was. */
  lemma {:induction false} ReplaceAbsent(s: string, pat: string, rep: string)
    requires |pat| > 0 && !Contains(s, pat)
    ensures Replace(s, pat, rep) == s
    decreases |s|
  {
    if |pat| <= |s| {
      assert !StartsWith(s, pat) && !Contains(s[1..], pat);
      ReplaceAbsent(s[1..], pat, rep);
      assert Replace(s, pat, rep) == [s[0]] + Replace(s[1..], pat, rep);
      assert s == [s[0]] + s[1..];
    }
  }

  /** The side condition under which a replacement cannot recreate the pattern:
      the replacement has neither the first nor the last character of the
      pattern, and has some character the pattern lacks. The markers of the
      template catalogue and the newline escape all satisfy it. */
  predicate Separates(pat: string, rep: string) {
    && |pat| > 0
    && pat[0] !in rep
    && pat[|pat| - 1] !in rep
    && exists c :: c in rep && c !in pat
  }

  /** `Separates` shown with a character of the replacement the pattern lacks. */
  lemma SeparatesBy(pat: string, rep: string, c: char)
    requires |pat| > 0 && pat[0] !in rep && pat[|pat| - 1] !in rep
    requires c in rep && c !in pat
    ensures Separates(pat, rep)
  {
  }

  /** A pattern whose first character is not in `a` cannot start inside `a`. */
  lemma {:induction false} ContainsAfterPrefix(a: string, y: string, pat: string)
    requires |pat| > 0 && pat[0] !in a
    ensures Contains(a + y, pat) ==> Contains(y, pat)
    decreases |a|
  {
    if |a| > 0 {
      assert !StartsWith(a + y, pat) by {
        assert (a + y)[0] == a[0] != pat[0];
      }
      assert (a + y)[1..] == a[1..] + y;
      assert Contains(a + y, pat) ==> Contains(a[1..] + y, pat);
      ContainsAfterPrefix(a[1..], y, pat);
    } else {
      assert a + y == y;
    }
  }

  /** If the result of a replacement starts with a tail `q` of the pattern,
      the input already did: no such tail can be made up from a replacement. */
  lemma {:induction false} ReplaceKeepsTail(t: string, pat: string, rep: string, q: string)
    requires Separates(pat, rep)
    requires |q| > 0 && q[|q| - 1] == pat[|pat| - 1]
    requires forall c :: c in q ==> c in pat
    ensures StartsWith(Replace(t, pat, rep), q) ==> StartsWith(t, q)
    decreases |t|
  {
    var r := Replace(t, pat, rep);
    if |t| < |pat| {
    } else if t[..|pat|] == pat {
      assert r == rep + Replace(t[|pat|..], pat, rep);
      if |q| <= |rep| {
        if |q| <= |r| {
          assert r[|q| - 1] == rep[|q| - 1];
          assert r[..|q|][|q| - 1] != q[|q| - 1];
        }
      } else {
        var c :| c in rep && c !in pat;
        var k :| 0 <= k < |rep| && rep[k] == c;
        if |q| <= |r| {
          assert r[k] == c && q[k] != c;
          assert r[..|q|][k] != q[k];
        }
      }
      assert !StartsWith(r, q);
    } else {
      var tail := Replace(t[1..], pat, rep);
      assert r == [t[0]] + tail;
      if |q| > 1 {
        StartsWithCons(r, q);
        StartsWithCons(t, q);
        assert r[1..] == tail;
        ReplaceKeepsTail(t[1..], pat, rep, q[1..]);
      }
    }
  }

  /** After the replacement no occurrence of the pattern is left. */
  lemma {:induction false} ReplaceRemovesAll(s: string, pat: string, rep: string)
    requires Separates(pat, rep)
    ensures !Contains(Replace(s, pat, rep), pat)
    decreases |s|
  {
    var r := Replace(s, pat, rep);
    if |s| < |pat| {
      if Contains(s, pat) { ContainsIsLongEnough(s, pat); }
    } else if s[..|pat|] == pat {
      ReplaceRemovesAll(s[|pat|..], pat, rep);
      ContainsAfterPrefix(rep, Replace(s[|pat|..], pat, rep), pat);
    } else {
      var tail := Replace(s[1..], pat, rep);
      assert r == [s[0]] + tail;
      ReplaceRemovesAll(s[1..], pat, rep);
      if |pat| > 1 {
        ReplaceKeepsTail(s[1..], pat, rep, pat[1..]);
        assert r[1..] == tail;
        StartsWithCons(r, pat);
        StartsWithCons(s, pat);
      }
      assert !StartsWith(r, pat);
      assert r[1..] == tail;
    }
  }

  /** Python's `s.split(sep)` for a non-empty separator. */
  function Split(s: string, sep: string): (r: seq<string>)
    requires |sep| > 0
    ensures |r| >= 1
    decreases |s|
  {
    match IndexOf(s, sep)
    case None => [s]
    case Some(i) => [s[..i]] + Split(s[i + |sep|..], sep)
  }

  /** The first occurrence of a character is where `find` stops. */
  lemma {:induction false} IndexOfChar(s: string, c: char, i: nat)
    requires i < |s| && s[i] == c && c !in s[..i]
    ensures IndexOf(s, [c]) == Some(i)
    decreases i
  {
    if i == 0 {
      assert s[..1] == [c];
    } else {
      assert s[..i][0] == s[0];
      assert s[..1] != [c];
      assert s[1..][..i - 1] == s[..i][1..];
      IndexOfChar(s[1..], c, i - 1);
    }
  }

  /** Splitting at a separator character whose first occurrence is at `i`
      yields the text before it, then the split of the rest. */
  lemma SplitAtFirst(s: string, c: char, i: nat)
    requires i < |s| && s[i] == c && c !in s[..i]
    ensures Split(s, [c]) == [s[..i]] + Split(s[i + 1..], [c])
  {
    IndexOfChar(s, c, i);
  }

  /** `s.split(sep)` has a second piece exactly when `sep in s`. */
  lemma SplitHasSecond(s: string, sep: string)
    requires |sep| > 0
    ensures |Split(s, sep)| >= 2 <==> Contains(s, sep)
  {
  }

  /** Python's `sep.join(parts)`. */
  function Join(sep: string, parts: seq<string>): string
    decreases |parts|
  {
    if |parts| == 0 then ""
    else if |parts| == 1 then parts[0]
    else parts[0] + sep + Join(sep, parts[1..])
  }

  /** With a separator whose first character does not recur in it, the first
      separator after text free of it is found right after that text. */
  lemma {:induction false} FirstSeparator(a: string, sep: string, b: string)
    requires |sep| > 0 && sep[0] !in sep[1..] && !Contains(a, sep)
    ensures IndexOf(a + sep + b, sep) == Some(|a|)
    decreases |a|
  {
    var s := a + sep + b;
    if a == [] {
      assert s[..|sep|] == sep;
    } else {
      if |a| >= |sep| {
        assert s[..|sep|] == a[..|sep|];
      } else {
        assert s[..|sep|][|a|] == sep[0];
        assert sep[|a|] != sep[0] by {
          assert sep[1..][|a| - 1] == sep[|a|];
        }
      }
      assert s[1..] == a[1..] + sep + b;
      FirstSeparator(a[1..], sep, b);
    }
  }

  /** `sep.join` and then `split(sep)` give the parts back when no part holds
      the separator and its first character does not recur in it. */
  lemma {:induction false} SplitJoin(sep: string, parts: seq<string>)
    requires |sep| > 0 && sep[0] !in sep[1..]
    requires |parts| > 0 && forall k :: 0 <= k < |parts| ==> !Contains(parts[k], sep)
    ensures Split(Join(sep, parts), sep) == parts
    decreases |parts|
  {
    if |parts| > 1 {
      var rest := Join(sep, parts[1..]);
      var s := parts[0] + sep + rest;
      FirstSeparator(parts[0], sep, rest);
      assert s[..|parts[0]|] == parts[0];
      assert s[|parts[0]| + |sep|..] == rest;
      assert forall k :: 0 <= k < |parts| - 1 ==> parts[1..][k] == parts[k + 1];
      SplitJoin(sep, parts[1..]);
      assert parts == [parts[0]] + parts[1..];
    }
  }

  /** The characters Python's `str.isspace()` accepts, which `strip()` removes. */
  const Whitespace: set<char> := {
    ' ', '\t', '\n', '\r', '\U{0B}', '\U{0C}', '\U{1C}', '\U{1D}', '\U{1E}', '\U{1F}',
    '\U{85}', '\U{A0}', '\U{1680}', '\U{2000}', '\U{2001}', '\U{2002}', '\U{2003}',
    '\U{2004}', '\U{2005}', '\U{2006}', '\U{2007}', '\U{2008}', '\U{2009}', '\U{200A}',
    '\U{2028}', '\U{2029}', '\U{202F}', '\U{205F}', '\U{3000}'
  }

  /** Python's `s.lstrip(chars)`. */
  function LStrip(s: string, chars: set<char>): (r: string)
    ensures |r| <= |s| && r == s[|s| - |r|..]
    ensures |r| > 0 ==> r[0] !in chars
    ensures forall k :: 0 <= k < |s| - |r| ==> s[k] in chars
    decreases |s|
  {
    if |s| > 0 && s[0] in chars then LStrip(s[1..], chars) else s
  }

  /** Python's `s.rstrip(chars)`. */
  function RStrip(s: string, chars: set<char>): (r: string)
    ensures |r| <= |s| && r == s[..|r|]
    ensures |r| > 0 ==> r[|r| - 1] !in chars
    ensures forall k :: |r| <= k < |s| ==> s[k] in chars
    decreases |s|
  {
    if |s| > 0 && s[|s| - 1] in chars then RStrip(s[..|s| - 1], chars) else s
  }

  /** A replacement leaves a prefix alone when the pattern cannot start in it. */
  lemma {:induction false} ReplaceKeepsPrefix(p: string, s: string, pat: string, rep: string)
    requires |pat| > 0 && pat[0] !in p
    ensures Replace(p + s, pat, rep) == p + Replace(s, pat, rep)
    decreases |p|
  {
    if p != [] {
      var ps := p + s;
      if |pat| <= |ps| {
        assert ps[..|pat|][0] != pat[0];
      }
      assert ps[1..] == p[1..] + s;
      ReplaceKeepsPrefix(p[1..], s, pat, rep);
    } else {
      assert p + s == s;
    }
  }

  predicate IsDigit(c: char) {
    '0' <= c <= '9'
  }

  predicate AllDigits(s: string) {
    forall k :: 0 <= k < |s| ==> IsDigit(s[k])
  }

  /** Python's `int(s)` on a string of ASCII digits. */
  function ParseDecimal(s: string): nat
    requires AllDigits(s)
    decreases |s|
  {
    if s == [] then 0
    else ParseDecimal(s[..|s| - 1]) * 10 + (s[|s| - 1] - '0') as nat
  }

  /** Python's `str(n)` on a natural number. */
  function NatToDecimal(n: nat): (r: string)
    ensures |r| > 0 && AllDigits(r)
    decreases n
  {
    (if n < 10 then "" else NatToDecimal(n / 10)) + [('0' as int + n % 10) as char]
  }

  /** Python's `str(i)`. */
  function IntToDecimal(i: int): string {
    if i < 0 then "-" + NatToDecimal(-i) else NatToDecimal(i)
  }

  /** `int(str(n)) == n`. */
  lemma {:induction false} ParseNatToDecimal(n: nat)
    ensures ParseDecimal(NatToDecimal(n)) == n
    decreases n
  {
    var r := NatToDecimal(n);
    assert r[..|r| - 1] == if n < 10 then "" else NatToDecimal(n / 10);
    if n >= 10 {
      ParseNatToDecimal(n / 10);
    }
  }

  /** Python's `s.strip()`. */
  function Strip(s: string): string {
    RStrip(LStrip(s, Whitespace), Whitespace)
  }
}
