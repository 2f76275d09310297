/** The few Python `str` operations the plugin's string handling relies on,
    written out on `seq<char>`: `startswith`, `endswith`, `replace`, slicing
    off a suffix, `strip(chars)`, ASCII `lower`, and the `re.sub(sep + '+', sep, s)`
    run-collapsing used by the command cleanup. */
module PyStr {

  /** `s.startswith(p)` */
  predicate StartsWith(s: string, p: string) {
    |p| <= |s| && s[..|p|] == p
  }

  /** `s.endswith(p)` */
  predicate EndsWith(s: string, p: string) {
    |p| <= |s| && s[|s| - |p|..] == p
  }

  /** `p` occurs somewhere inside `s`. */
  predicate Occurs(s: string, p: string)
    decreases |s|
  {
    StartsWith(s, p) || (s != [] && Occurs(s[1..], p))
  }

  /** `s.replace(pat, '')`: every non-overlapping occurrence of `pat`, scanning left
      to right, is deleted; an empty `pat` leaves `s` as it is. */
  function RemoveAll(s: string, pat: string): (r: string)
    ensures |r| <= |s|
    decreases |s|
  {
    if pat == [] || s == [] then s
    else if StartsWith(s, pat) then RemoveAll(s[|pat|..], pat)
    else [s[0]] + RemoveAll(s[1..], pat)
  }

  /** `s.replace(a, b)` for one-character `a` and `b`. */
  function ReplaceChar(s: string, a: char, b: char): (r: string)
    ensures |r| == |s|
    ensures forall i :: 0 <= i < |s| ==> r[i] == if s[i] == a then b else s[i]
  {
    seq(|s|, i requires 0 <= i < |s| => if s[i] == a then b else s[i])
  }

  /** `s[:-n]` for a positive `n`: everything but the last `n` characters, or
      nothing when `s` is shorter than that. */
  function DropLast(s: string, n: nat): (r: string)
    ensures |r| == if |s| < n then 0 else |s| - n
    ensures r <= s
  {
    if |s| < n then [] else s[..|s| - n]
  }

  /** ASCII `c.lower()`. */
  function Lower(c: char): (d: char)
    ensures 'A' <= c <= 'Z' ==> d as int == c as int + 32
    ensures !('A' <= c <= 'Z') ==> d == c
  {
    if 'A' <= c <= 'Z' then (c as int + 32) as char else c
  }

  /** The number of leading characters of `s` that belong to `chars`: the first
      character after them, if any, does not. */
  function LeadingIn(s: string, chars: set<char>): (n: nat)
    ensures n <= |s|
    ensures n < |s| ==> s[n] !in chars
    decreases |s|
  {
    if |s| > 0 && s[0] in chars then 1 + LeadingIn(s[1..], chars) else 0
  }

  /** The number of trailing characters of `s` that belong to `chars`: the
      character before them, if any, does not. */
  function TrailingIn(s: string, chars: set<char>): (n: nat)
    ensures n <= |s|
    ensures n < |s| ==> s[|s| - n - 1] !in chars
    decreases |s|
  {
    if |s| > 0 && s[|s| - 1] in chars then 1 + TrailingIn(s[..|s| - 1], chars) else 0
  }

  /** All the characters `LeadingIn` counts belong to `chars`. */
  lemma {:induction false} LeadingInAll(s: string, chars: set<char>)
    ensures forall k :: 0 <= k < LeadingIn(s, chars) ==> s[k] in chars
    decreases |s|
  {
    if |s| > 0 && s[0] in chars {
      LeadingInAll(s[1..], chars);
      assert forall k :: 1 <= k < LeadingIn(s, chars) ==> s[k] == s[1..][k - 1];
    }
  }

  /** All the characters `TrailingIn` counts belong to `chars`. */
  lemma {:induction false} TrailingInAll(s: string, chars: set<char>)
    ensures forall k :: |s| - TrailingIn(s, chars) <= k < |s| ==> s[k] in chars
    decreases |s|
  {
    if |s| > 0 && s[|s| - 1] in chars {
      TrailingInAll(s[..|s| - 1], chars);
    }
  }

  /** The characters of `s`, as `strip` reads its argument. */
  function Chars(s: string): set<char> {
    set c | c in s
  }

  /** `s.strip(chars)`: `chars` is a set of characters, and the longest prefix and
      suffix made only of them are removed, so what is left neither starts nor
      ends with one of them. */
  function Strip(s: string, chars: set<char>): (r: string)
    ensures |r| <= |s|
    ensures r != [] ==> r[0] !in chars && r[|r| - 1] !in chars
  {
    var i := LeadingIn(s, chars);
    var t := s[i..];
    var j := |s| - TrailingIn(t, chars);
    assert t[..|t| - TrailingIn(t, chars)] == s[i..j];
    s[i..j]
  }

  /** What `strip` removes: the result is a middle factor of `s`, everything
      before and after it belongs to `chars`, and an empty result means `s` was
      made of `chars` alone. */
  lemma StripMiddle(s: string, chars: set<char>)
    ensures exists i, j ::
              && 0 <= i <= j <= |s| && Strip(s, chars) == s[i..j]
              && (forall k :: 0 <= k < i ==> s[k] in chars)
              && (forall k :: j <= k < |s| ==> s[k] in chars)
    ensures Strip(s, chars) == [] ==> forall k :: 0 <= k < |s| ==> s[k] in chars
  {
    var i := LeadingIn(s, chars);
    var t := s[i..];
    var n := TrailingIn(t, chars);
    var j := |s| - n;
    LeadingInAll(s, chars);
    TrailingInAll(t, chars);
    assert Strip(s, chars) == s[i..j];
    assert forall k :: j <= k < |s| ==> s[k] in chars by {
      assert forall k :: j <= k < |s| ==> s[k] == t[k - i];
    }
  }

  /** Stripping never brings in a character. */
  lemma StripAbsent(s: string, chars: set<char>, c: char)
    requires c !in s
    ensures c !in Strip(s, chars)
  {
    var i := LeadingIn(s, chars);
    var j := |s| - TrailingIn(s[i..], chars);
    assert Strip(s, chars) == s[i..j];
  }

  /** A string that neither starts nor ends with one of `chars` is left as it is. */
  lemma StripKeeps(s: string, chars: set<char>)
    requires s != [] && s[0] !in chars && s[|s| - 1] !in chars
    ensures Strip(s, chars) == s
  {
    assert LeadingIn(s, chars) == 0;
    assert s[0..] == s;
    assert TrailingIn(s, chars) == 0;
  }

  /** `s` with every occurrence of the character `c` deleted. */
  function Without(s: string, c: char): (r: string)
    ensures c !in r
  {
    if s == [] then [] else (if s[0] == c then [] else [s[0]]) + Without(s[1..], c)
  }

  /** Characters that are special in a Python regular expression; a separator
      built of none of them is matched literally by `re`. */
  const RegexSpecial: string := ".^$*+?{}[]\\|()"

  predicate PlainPattern(sep: string) {
    forall k :: 0 <= k < |sep| ==> sep[k] !in RegexSpecial
  }

  /** `re.sub(sep + '+', sep, s)` for a non-empty `sep` of plain characters: the
      pattern is `sep` whose last character may repeat, so each leftmost occurrence
      of `sep` followed by more copies of its last character is cut back to `sep`. */
  function SubRuns(s: string, sep: string): (r: string)
    requires sep != []
    ensures |r| <= |s|
    ensures s != [] ==> r != [] && r[0] == s[0]
    decreases |s|
  {
    if s == [] then []
    else if StartsWith(s, sep) then
      var rest := s[|sep|..];
      sep + SubRuns(rest[LeadingIn(rest, {sep[|sep| - 1]})..], sep)
    else [s[0]] + SubRuns(s[1..], sep)
  }

  lemma {:induction false} WithoutAppend(a: string, b: string, c: char)
    ensures Without(a + b, c) == Without(a, c) + Without(b, c)
    decreases |a|
  {
    if a != [] {
      var head := if a[0] == c then [] else [a[0]];
      assert (a + b)[0] == a[0];
      assert (a + b)[1..] == a[1..] + b;
      WithoutAppend(a[1..], b, c);
      calc {
        Without(a + b, c);
        head + Without(a[1..] + b, c);
        head + (Without(a[1..], c) + Without(b, c));
        (head + Without(a[1..], c)) + Without(b, c);
      }
    } else {
      assert a + b == b;
    }
  }

  lemma {:induction false} WithoutAllOf(s: string, c: char)
    requires forall k :: 0 <= k < |s| ==> s[k] == c
    ensures Without(s, c) == []
    decreases |s|
  {
    if s != [] {
      WithoutAllOf(s[1..], c);
    }
  }

  /** For a one-character separator, collapsing runs only touches separator
      characters: deleting them from input and output gives the same string. */
  lemma {:induction false} SubRunsKeepsOtherCharacters(s: string, c: char)
    ensures Without(SubRuns(s, [c]), c) == Without(s, c)
    decreases |s|
  {
    if s == [] {
    } else if StartsWith(s, [c]) {
      var rest := s[1..];
      var n := LeadingIn(rest, {c});
      LeadingInAll(rest, {c});
      SubRunsKeepsOtherCharacters(rest[n..], c);
      assert rest == rest[..n] + rest[n..];
      WithoutAppend(rest[..n], rest[n..], c);
      WithoutAllOf(rest[..n], c);
      WithoutAppend([c], SubRuns(rest[n..], [c]), c);
      assert s == [c] + rest;
      WithoutAppend([c], rest, c);
    } else {
      SubRunsKeepsOtherCharacters(s[1..], c);
      WithoutAppend([s[0]], SubRuns(s[1..], [c]), c);
      assert s == [s[0]] + s[1..];
      WithoutAppend([s[0]], s[1..], c);
    }
  }

  /** No two copies of `c` stand side by side in `s`. */
  predicate NoRuns(s: string, c: char) {
    forall k :: 0 <= k < |s| - 1 ==> !(s[k] == c && s[k + 1] == c)
  }

  /** For a one-character separator, no two separators stay adjacent. */
  lemma {:induction false} SubRunsCollapses(s: string, c: char)
    ensures NoRuns(SubRuns(s, [c]), c)
    decreases |s|
  {
    if s == [] {
    } else if StartsWith(s, [c]) {
      var rest := s[1..];
      var n := LeadingIn(rest, {c});
      SubRunsCollapses(rest[n..], c);
    } else {
      SubRunsCollapses(s[1..], c);
    }
  }

  /** Runs of `c` collapsed, stated locally: a copy of `c` is dropped exactly
      when the next character is `c` too, so each run keeps one copy and every
      other character stays. */
  function CollapseRuns(s: string, c: char): string
    decreases |s|
  {
    if |s| < 2 then s
    else if s[0] == c && s[1] == c then CollapseRuns(s[1..], c)
    else [s[0]] + CollapseRuns(s[1..], c)
  }

  /** A run of `c` of length `n + 1` at the head of `s` collapses to one `c`. */
  lemma {:induction false} CollapseRunsHead(s: string, c: char, n: nat)
    requires n + 1 <= |s| && forall k :: 0 <= k <= n ==> s[k] == c
    requires n + 1 == |s| || s[n + 1] != c
    ensures CollapseRuns(s, c) == [c] + CollapseRuns(s[n + 1..], c)
    decreases n
  {
    if n == 0 {
      if |s| >= 2 {
        assert s[1..] == s[n + 1..];
      }
    } else {
      CollapseRunsHead(s[1..], c, n - 1);
      assert s[1..][n..] == s[n + 1..];
    }
  }

  /** For a one-character separator, `re.sub(c + '+', c, s)` is `CollapseRuns`:
      every maximal run of `c` becomes exactly one `c`, and nothing else changes. */
  lemma {:induction false} SubRunsIsCollapseRuns(s: string, c: char)
    ensures SubRuns(s, [c]) == CollapseRuns(s, c)
    decreases |s|
  {
    if s == [] {
    } else if StartsWith(s, [c]) {
      var rest := s[1..];
      var n := LeadingIn(rest, {c});
      LeadingInAll(rest, {c});
      assert forall k :: 0 <= k <= n ==> s[k] == c by {
        assert forall k :: 1 <= k <= n ==> s[k] == rest[k - 1];
      }
      CollapseRunsHead(s, c, n);
      assert rest[n..] == s[n + 1..];
      SubRunsIsCollapseRuns(rest[n..], c);
    } else {
      SubRunsIsCollapseRuns(s[1..], c);
    }
  }

  /** A run of `n >= 1` copies of `c` between characters other than `c` leaves
      exactly one copy. */
  lemma SubRunsOneRun(a: string, n: nat, b: string, c: char)
    requires n >= 1 && c !in a && c !in b
    ensures SubRuns(a + seq(n, _ => c) + b, [c]) == a + [c] + b
  {
    var run := seq(n, _ => c);
    SubRunsPlainPrefix(a, run + b, c);
    assert a + run + b == a + (run + b);
    CollapseRunsHead(run + b, c, n - 1);
    assert (run + b)[n..] == b;
    NoRunsAbsent(b, c);
    SubRunsNoRuns(b, c);
    SubRunsIsCollapseRuns(b, c);
    SubRunsIsCollapseRuns(run + b, c);
  }

  /** `s.replace(pat, '')` on a string that starts with `pat` and has no other
      occurrence of it is the rest of the string. */
  lemma {:induction false} RemoveAllLeading(pat: string, rest: string)
    requires pat != []
    requires !Occurs(rest, pat)
    ensures RemoveAll(pat + rest, pat) == rest
  {
    assert (pat + rest)[..|pat|] == pat;
    assert (pat + rest)[|pat|..] == rest;
    RemoveAllAbsent(rest, pat);
  }

  /** `s.replace(pat, '')` leaves a string without `pat` unchanged. */
  lemma {:induction false} RemoveAllAbsent(s: string, pat: string)
    requires !Occurs(s, pat)
    ensures RemoveAll(s, pat) == s
    decreases |s|
  {
    if pat == [] || s == [] {
    } else {
      RemoveAllAbsent(s[1..], pat);
      assert s == [s[0]] + s[1..];
    }
  }

  /** Every character of `p` occurs in a string that contains `p`. */
  lemma {:induction false} OccursHasChars(s: string, p: string, k: int)
    requires Occurs(s, p) && 0 <= k < |p|
    ensures p[k] in s
    decreases |s|
  {
    if StartsWith(s, p) {
      assert s[..|p|][k] == s[k];
    } else {
      OccursHasChars(s[1..], p, k);
      assert forall c :: c in s[1..] ==> c in s;
    }
  }

  /** A string that lacks one of the characters of `p` does not contain `p`. */
  lemma NotOccursMissingChar(s: string, p: string, k: int)
    requires 0 <= k < |p| && p[k] !in s
    ensures !Occurs(s, p)
  {
    if Occurs(s, p) {
      OccursHasChars(s, p, k);
    }
  }

  /** Collapsing a one-character separator changes nothing where no two
      separators are adjacent, so collapsing twice is collapsing once. */
  lemma {:induction false} SubRunsNoRuns(s: string, c: char)
    requires NoRuns(s, c)
    ensures SubRuns(s, [c]) == s
    decreases |s|
  {
    if s != [] {
      SubRunsNoRuns(s[1..], c);
      if StartsWith(s, [c]) {
        assert s[1..] == [] || s[1..][0] != c;
        assert LeadingIn(s[1..], {c}) == 0;
        assert s[1..][0..] == s[1..];
      }
      assert s == [s[0]] + s[1..];
    }
  }

  /** Stripping keeps a middle factor, so it creates no new run. */
  lemma StripNoRuns(s: string, chars: set<char>, c: char)
    requires NoRuns(s, c)
    ensures NoRuns(Strip(s, chars), c)
  {
    var i := LeadingIn(s, chars);
    var j := |s| - TrailingIn(s[i..], chars);
    assert Strip(s, chars) == s[i..j];
    assert forall k :: 0 <= k < j - i ==> s[i..j][k] == s[i + k];
  }

  /** A string whose only character to strip is its last loses just that one. */
  lemma StripLast(s: string, chars: set<char>)
    requires |s| >= 2 && s[0] !in chars && s[|s| - 1] in chars && s[|s| - 2] !in chars
    ensures Strip(s, chars) == s[..|s| - 1]
  {
    assert LeadingIn(s, chars) == 0;
    assert s[0..] == s;
    assert s[..|s| - 1][..|s| - 2] == s[..|s| - 2];
    assert TrailingIn(s[..|s| - 1], chars) == 0;
  }

  /** Replacing a character that does not occur changes nothing. */
  lemma ReplaceCharAbsent(s: string, a: char, b: char)
    requires a !in s
    ensures ReplaceChar(s, a, b) == s
  {
    assert forall k :: 0 <= k < |s| ==> s[k] != a;
  }

  /** Collapsing runs of `c` passes over a prefix without `c` unchanged. */
  lemma {:induction false} SubRunsPlainPrefix(a: string, b: string, c: char)
    requires c !in a
    ensures SubRuns(a + b, [c]) == a + SubRuns(b, [c])
    decreases |a|
  {
    if a != [] {
      assert (a + b)[0] == a[0];
      assert (a + b)[1..] == a[1..] + b;
      assert !StartsWith(a + b, [c]);
      SubRunsPlainPrefix(a[1..], b, c);
    } else {
      assert a + b == b;
    }
  }

  /** A single `c` between two strings without `c` makes no run. */
  lemma NoRunsJoin(a: string, b: string, c: char)
    requires c !in a && c !in b
    ensures NoRuns(a + [c] + b, c)
  {
    var s := a + [c] + b;
    forall k | 0 <= k < |s| - 1
      ensures !(s[k] == c && s[k + 1] == c)
    {
      if k < |a| {
        assert s[k] == a[k];
      } else if k == |a| {
        assert s[k + 1] == b[0];
      } else {
        assert s[k] == b[k - |a| - 1];
      }
    }
  }

  /** A string without `c` has no run of it. */
  lemma NoRunsAbsent(s: string, c: char)
    requires c !in s
    ensures NoRuns(s, c)
  {
    assert forall k :: 0 <= k < |s| ==> s[k] != c;
  }

  /** A string whose only character to strip is its first loses just that one. */
  lemma StripFirst(s: string, chars: set<char>)
    requires |s| >= 2 && s[0] in chars && s[1] !in chars && s[|s| - 1] !in chars
    ensures Strip(s, chars) == s[1..]
  {
    assert LeadingIn(s[1..], chars) == 0;
    assert LeadingIn(s, chars) == 1;
    assert TrailingIn(s[1..], chars) == 0;
  }

  /** Turning separators into dots works piece by piece across a separator. */
  lemma ReplaceCharJoin(a: string, b: string, x: char, y: char)
    requires x !in a
    ensures ReplaceChar(a + [x] + b, x, y) == a + [y] + ReplaceChar(b, x, y)
  {
    var s := a + [x] + b;
    assert forall k :: 0 <= k < |a| ==> s[k] == a[k] && a[k] != x;
    assert forall k :: |a| < k < |s| ==> s[k] == b[k - |a| - 1];
  }

  /** `replace` deletes a leading occurrence of the pattern and goes on after it. */
  lemma RemoveAllPrefix(pat: string, rest: string)
    requires pat != []
    ensures RemoveAll(pat + rest, pat) == RemoveAll(rest, pat)
  {
    assert (pat + rest)[..|pat|] == pat;
    assert (pat + rest)[|pat|..] == rest;
  }

  /** `replace` keeps a first character where the pattern does not start. */
  lemma RemoveAllKeepsHead(c: char, rest: string, pat: string)
    requires pat != [] && !StartsWith([c] + rest, pat)
    ensures RemoveAll([c] + rest, pat) == [c] + RemoveAll(rest, pat)
  {
    assert ([c] + rest)[1..] == rest;
  }

  /** `replace` of one character works on the two halves of a string apart. */
  lemma ReplaceCharAppend(a: string, b: string, x: char, y: char)
    ensures ReplaceChar(a + b, x, y) == ReplaceChar(a, x, y) + ReplaceChar(b, x, y)
  {
    assert forall k :: |a| <= k < |a + b| ==> (a + b)[k] == b[k - |a|];
  }
}
