/** The few operations of Python's `str` that the chat scripts rely on:
    the substring test `p in s`, `lower()`, `strip()`, `len(s.split())`,
    `sep.join(xs)`, `s.split("\n")` and the first piece of `s.split(sep)`,
    plus the `f"{role}: {content}"` entry format every history uses. */
module Strings {

  /** `p in s`: p occurs in s as a contiguous substring. */
  predicate Contains(s: string, p: string)
    decreases |s|
  {
    p <= s || (s != [] && Contains(s[1..], p))
  }

  /** Contains agrees with the positional definition of a substring. */
  lemma {:induction false} ContainsAt(s: string, p: string)
    ensures Contains(s, p) <==> exists i :: 0 <= i <= |s| && p <= s[i..]
  {
    if s == [] {
      assert s[0..] == s;
    } else {
      ContainsAt(s[1..], p);
      assert s[0..] == s;
      if exists i :: 0 <= i <= |s| && p <= s[i..] {
        var i :| 0 <= i <= |s| && p <= s[i..];
        if i > 0 {
          assert s[1..][i - 1..] == s[i..];
        }
      }
      if exists j :: 0 <= j <= |s[1..]| && p <= s[1..][j..] {
        var j :| 0 <= j <= |s[1..]| && p <= s[1..][j..];
        assert s[1..][j..] == s[j + 1..];
      }
    }
  }

  /** A non-empty pattern whose first character never occurs in s is not in s. */
  lemma {:induction false} NotContainsFirstChar(s: string, p: string)
    requires p != [] && p[0] !in s
    ensures !Contains(s, p)
  {
    if s != [] {
      NotContainsFirstChar(s[1..], p);
    }
  }

  /** An occurrence in a suffix is an occurrence in the whole string. */
  lemma {:induction false} ContainsSuffix(s: string, k: nat, p: string)
    requires k <= |s| && Contains(s[k..], p)
    ensures Contains(s, p)
  {
    if k > 0 {
      assert s[1..][k - 1..] == s[k..];
      ContainsSuffix(s[1..], k - 1, p);
    }
  }

  /** An occurrence in a prefix is an occurrence in the whole string. */
  lemma {:induction false} ContainsPrefix(s: string, k: nat, p: string)
    requires k <= |s| && Contains(s[..k], p)
    ensures Contains(s, p)
  {
    if !(p <= s[..k]) {
      assert s[..k] != [];
      assert s[..k][1..] == s[1..][..k - 1];
      ContainsPrefix(s[1..], k - 1, p);
    }
  }

  /** Python's `str.lower()` on one character, for the part of Unicode the
      scripts' inputs and patterns use: ASCII capitals, the Latin-1 capitals
      U+00C0..U+00DE (all but the sign U+00D7), and the Kelvin sign. */
  function LowerChar(c: char): char
  {
    if 'A' <= c <= 'Z' || ('\U{C0}' <= c <= '\U{DE}' && c != '\U{D7}') then
      (c as int + 32) as char
    else if c == '\U{212A}' then
      'k'
    else
      c
  }

  /** `s.lower()`, character by character. */
  function Lower(s: string): (r: string)
    ensures |r| == |s|
  {
    if s == [] then [] else [LowerChar(s[0])] + Lower(s[1..])
  }

  /** Lower-casing works character by character. */
  lemma {:induction false} LowerAt(s: string, i: nat)
    requires i < |s|
    ensures Lower(s)[i] == LowerChar(s[i])
  {
    if i > 0 {
      LowerAt(s[1..], i - 1);
    }
  }

  /** `s` equals the lower-case word `w` up to case, character by character. */
  predicate MatchesIgnoringCase(s: string, w: string)
  {
    |s| == |w| && forall i :: 0 <= i < |s| ==> LowerChar(s[i]) == w[i]
  }

  /** `s.lower() == w` exactly when `s` matches `w` up to case. */
  lemma LowerEqualsIff(s: string, w: string)
    ensures Lower(s) == w <==> MatchesIgnoringCase(s, w)
  {
    forall i | 0 <= i < |s| {
      LowerAt(s, i);
    }
    if MatchesIgnoringCase(s, w) {
      assert Lower(s) == w;
    }
  }

  /** Lower-casing twice is lower-casing once. */
  lemma {:induction false} LowerIdempotent(s: string)
    ensures Lower(Lower(s)) == Lower(s)
  {
    if s != [] {
      var once := Lower(s);
      assert once[1..] == Lower(s[1..]);
      LowerIdempotent(s[1..]);
      assert LowerChar(LowerChar(s[0])) == LowerChar(s[0]);
    }
  }

  /** The characters Python's `str.isspace()` accepts; `strip()` and
      `split()` without arguments use exactly these. */
  predicate IsSpace(c: char)
  {
    || c in {' ', '\t', '\n', '\r', '\U{0B}', '\U{0C}', '\U{1C}', '\U{1D}', '\U{1E}', '\U{1F}'}
    || c in {'\U{85}', '\U{A0}', '\U{1680}', '\U{2028}', '\U{2029}', '\U{202F}', '\U{205F}', '\U{3000}'}
    || '\U{2000}' <= c <= '\U{200A}'
  }

  /** `s.lstrip()`: s without its leading whitespace. */
  function StripLeft(s: string): (r: string)
    ensures |r| <= |s| && r == s[|s| - |r|..]
    ensures forall i :: 0 <= i < |s| - |r| ==> IsSpace(s[i])
    ensures r == [] || !IsSpace(r[0])
  {
    if s != [] && IsSpace(s[0]) then StripLeft(s[1..]) else s
  }

  /** `s.rstrip()`: s without its trailing whitespace. */
  function StripRight(s: string): (r: string)
    ensures |r| <= |s| && r == s[..|r|]
    ensures forall i :: |r| <= i < |s| ==> IsSpace(s[i])
    ensures r == [] || !IsSpace(r[|r| - 1])
  {
    if s != [] && IsSpace(s[|s| - 1]) then StripRight(s[..|s| - 1]) else s
  }

  /** `r` sits in `s` at offset `i` with only whitespace before and after it. */
  predicate TrimmedAt(s: string, i: nat, r: string)
  {
    && i + |r| <= |s| && s[i..i + |r|] == r
    && (forall k :: 0 <= k < i ==> IsSpace(s[k]))
    && (forall k :: i + |r| <= k < |s| ==> IsSpace(s[k]))
  }

  /** A prefix `r` of a suffix `l` of `s`, where only whitespace comes
      before `l` in `s` and after `r` in `l`, sits in `s` where `l` starts
      with only whitespace around it. */
  lemma TrimmedWithin(s: string, l: string, r: string)
    requires |l| <= |s| && l == s[|s| - |l|..]
    requires forall k :: 0 <= k < |s| - |l| ==> IsSpace(s[k])
    requires |r| <= |l| && r == l[..|r|]
    requires forall k :: |r| <= k < |l| ==> IsSpace(l[k])
    ensures TrimmedAt(s, |s| - |l|, r)
  {
    var i := |s| - |l|;
    assert s[i..i + |r|] == r by {
      forall k | 0 <= k < |r| ensures s[i + k] == r[k] {
        assert l[k] == s[i + k];
      }
    }
    forall k | i + |r| <= k < |s| ensures IsSpace(s[k]) {
      assert s[k] == l[k - i];
    }
  }

  /** `s.strip()`: the part of s between its leading and its trailing
      whitespace; the result neither starts nor ends with whitespace, and a
      string that does neither comes back unchanged. */
  function Strip(s: string): (r: string)
    ensures Contains(s, r)
    ensures r == [] || (!IsSpace(r[0]) && !IsSpace(r[|r| - 1]))
    ensures (s == [] || (!IsSpace(s[0]) && !IsSpace(s[|s| - 1]))) ==> r == s
  {
    var l := StripLeft(s);
    var r := StripRight(l);
    assert r != [] ==> r[0] == l[0];
    assert (s == [] || !IsSpace(s[0])) ==> l == s;
    assert (l == [] || !IsSpace(l[|l| - 1])) ==> r == l;
    assert r <= s[|s| - |l|..];
    ContainsAt(s, r);
    r
  }

  /** `strip()` cuts away whitespace at the two ends and nothing else: the
      result sits in `s` with only whitespace before and after it. */
  lemma StripCutsOnlyEdges(s: string)
    ensures exists i :: 0 <= i <= |s| && TrimmedAt(s, i, Strip(s))
  {
    var l := StripLeft(s);
    var r := StripRight(l);
    TrimmedWithin(s, l, r);
    assert TrimmedAt(s, |s| - |l|, Strip(s));
  }

  /** Stripping is idempotent. */
  lemma StripIdempotent(s: string)
    ensures Strip(Strip(s)) == Strip(s)
  {
    var r := Strip(s);
    assert StripLeft(r) == r;
    assert StripRight(r) == r;
  }

  /** A leading space never changes what `strip()` returns. */
  lemma StripLeadingSpace(c: string)
    ensures Strip(" " + c) == Strip(c)
  {
    assert (" " + c)[1..] == c;
  }

  /** `len(s.split())`: the number of maximal runs of non-whitespace
      characters, counted at the character that ends each run. */
  function WordCount(s: string): (n: nat)
    ensures n <= |s|
    ensures n == 0 <==> forall i :: 0 <= i < |s| ==> IsSpace(s[i])
  {
    if s == [] then 0
    else
      var rest := WordCount(s[1..]);
      assert forall i :: 1 <= i < |s| ==> s[1..][i - 1] == s[i];
      rest + (if !IsSpace(s[0]) && (|s| == 1 || IsSpace(s[1])) then 1 else 0)
  }

  /** Position i ends a word of s: a non-whitespace character followed by
      whitespace or by the end of s. */
  predicate WordEnd(s: string, i: int)
  {
    0 <= i < |s| && !IsSpace(s[i]) && (i + 1 == |s| || IsSpace(s[i + 1]))
  }

  /** The positions from `lo` on that end a word. */
  ghost function WordEndsFrom(s: string, lo: nat): set<int>
  {
    set i | lo <= i < |s| && WordEnd(s, i)
  }

  /** Counting the words of a suffix counts the word ends from where it
      starts. */
  lemma {:induction false} WordCountFrom(s: string, lo: nat)
    requires lo <= |s|
    ensures WordCount(s[lo..]) == |WordEndsFrom(s, lo)|
    decreases |s| - lo
  {
    if lo == |s| {
      assert WordEndsFrom(s, lo) == {};
    } else {
      WordCountFrom(s, lo + 1);
      var t := s[lo..];
      assert t[1..] == s[lo + 1..];
      assert t[0] == s[lo];
      assert |t| > 1 ==> t[1] == s[lo + 1];
      var later := WordEndsFrom(s, lo + 1);
      assert lo !in later;
      if WordEnd(s, lo) {
        assert WordEndsFrom(s, lo) == later + {lo};
      } else {
        assert WordEndsFrom(s, lo) == later;
      }
    }
  }

  /** `len(s.split())` is the number of positions that end a word. */
  lemma WordCountIsWordEnds(s: string)
    ensures WordCount(s) == |set i | 0 <= i < |s| && WordEnd(s, i)|
  {
    WordCountFrom(s, 0);
    assert s[0..] == s;
  }

  /** `sep.join(xs)`. */
  function Join(xs: seq<string>, sep: string): string
  {
    if xs == [] then ""
    else if |xs| == 1 then xs[0]
    else xs[0] + sep + Join(xs[1..], sep)
  }

  /** Joining one more item puts one separator before it. */
  lemma {:induction false} JoinAppend(xs: seq<string>, x: string, sep: string)
    ensures Join(xs + [x], sep) == if xs == [] then x else Join(xs, sep) + sep + x
  {
    if |xs| > 1 {
      assert (xs + [x])[1..] == xs[1..] + [x];
      JoinAppend(xs[1..], x, sep);
    } else if |xs| == 1 {
      assert (xs + [x])[1..] == [x];
    }
  }

  /** Every joined item occurs in the joined string. */
  lemma {:induction false} JoinContainsItem(xs: seq<string>, sep: string, k: nat)
    requires k < |xs|
    ensures Contains(Join(xs, sep), xs[k])
  {
    if |xs| == 1 {
      assert Contains(xs[0], xs[0]);
    } else {
      var j := Join(xs, sep);
      assert j == xs[0] + sep + Join(xs[1..], sep);
      if k == 0 {
        assert xs[0] <= j;
      } else {
        JoinContainsItem(xs[1..], sep, k - 1);
        assert j[|xs[0] + sep|..] == Join(xs[1..], sep);
        ContainsSuffix(j, |xs[0] + sep|, xs[k]);
      }
    }
  }

  /** `s.split("\n")`: the pieces between newlines, always at least one. */
  function SplitLines(s: string): (r: seq<string>)
    ensures |r| >= 1
    ensures forall k :: 0 <= k < |r| ==> '\n' !in r[k]
  {
    if s == [] then [""]
    else
      var rest := SplitLines(s[1..]);
      if s[0] == '\n' then [""] + rest else [[s[0]] + rest[0]] + rest[1..]
  }

  /** A string with no newline is a single line. */
  lemma {:induction false} SplitLinesSingle(a: string)
    requires '\n' !in a
    ensures SplitLines(a) == [a]
  {
    if a != [] {
      assert '\n' !in a[1..];
      SplitLinesSingle(a[1..]);
      assert [a[0]] + a[1..] == a;
    }
  }

  /** A newline-free head is split off whole at the first newline. */
  lemma {:induction false} SplitLinesCons(a: string, b: string)
    requires '\n' !in a
    ensures SplitLines(a + "\n" + b) == [a] + SplitLines(b)
  {
    if a == [] {
      assert ("\n" + b)[1..] == b;
    } else {
      assert (a + "\n" + b)[1..] == a[1..] + "\n" + b;
      assert '\n' !in a[1..];
      SplitLinesCons(a[1..], b);
      assert [a[0]] + a[1..] == a;
    }
  }

  /** Splitting a newline join gives the items back, provided there is at
      least one item and no item holds a newline. */
  lemma {:induction false} SplitJoinLines(xs: seq<string>)
    requires xs != []
    requires forall k :: 0 <= k < |xs| ==> '\n' !in xs[k]
    ensures SplitLines(Join(xs, "\n")) == xs
  {
    if |xs| == 1 {
      SplitLinesSingle(xs[0]);
    } else {
      SplitJoinLines(xs[1..]);
      SplitLinesCons(xs[0], Join(xs[1..], "\n"));
    }
  }

  /** No item holds a newline, so a newline join can be taken apart again. */
  predicate NoNewlines(xs: seq<string>)
  {
    forall k :: 0 <= k < |xs| ==> '\n' !in xs[k]
  }

  /** What `"\n".join(xs)` means for a reader of the joined text: nothing
      for no items, every item somewhere in it, and, when no item holds a
      newline, exactly the items as its lines. */
  lemma JoinLinesMeaning(xs: seq<string>)
    ensures xs == [] ==> Join(xs, "\n") == ""
    ensures forall k :: 0 <= k < |xs| ==> Contains(Join(xs, "\n"), xs[k])
    ensures xs != [] && NoNewlines(xs) ==> SplitLines(Join(xs, "\n")) == xs
  {
    forall k | 0 <= k < |xs|
      ensures Contains(Join(xs, "\n"), xs[k])
    {
      JoinContainsItem(xs, "\n", k);
    }
    if xs != [] && NoNewlines(xs) {
      SplitJoinLines(xs);
    }
  }

  /** The history entry `f"{role}: {content}"`. */
  function Entry(role: string, content: string): (e: string)
    ensures |e| == |role| + 2 + |content|
  {
    role + ": " + content
  }

  /** An entry starts with the role, then ": ", then exactly the content. */
  lemma EntryParts(role: string, content: string)
    ensures var e := Entry(role, content);
            role <= e && e[|role|..|role| + 2] == ": " && e[|role| + 2..] == content
  {
  }

  /** An entry holds a newline only where its role or its content does. */
  lemma EntryNewlines(role: string, content: string)
    ensures '\n' in Entry(role, content) <==> '\n' in role || '\n' in content
  {
    var e := Entry(role, content);
    if '\n' in e {
      var i :| 0 <= i < |e| && e[i] == '\n';
      if i >= |role| + 2 {
        assert content[i - |role| - 2] == '\n';
      }
    }
    if '\n' in content {
      var j :| 0 <= j < |content| && content[j] == '\n';
      assert e[|role| + 2 + j] == '\n';
    }
  }

  /** `s.split(sep)[0]`: the part of s before the first occurrence of sep,
      or all of s when sep does not occur. */
  function BeforeFirst(s: string, sep: string): (r: string)
    ensures r <= s
    ensures sep != [] ==> !Contains(r, sep)
    ensures r == s || sep <= s[|r|..]
  {
    if sep <= s || s == [] then "" else [s[0]] + BeforeFirst(s[1..], sep)
  }

  /** The cut is at the first occurrence: no occurrence of the separator
      starts inside the piece that is kept. */
  lemma {:induction false} BeforeFirstIsFirst(s: string, sep: string)
    ensures var r := BeforeFirst(s, sep);
            forall j :: 0 <= j < |r| ==> !(sep <= s[j..])
  {
    if !(sep <= s || s == []) {
      BeforeFirstIsFirst(s[1..], sep);
      var r := BeforeFirst(s, sep);
      forall j | 0 <= j < |r|
        ensures !(sep <= s[j..])
      {
        if j > 0 {
          assert s[j..] == s[1..][j - 1..];
        }
      }
    }
  }

  /** Putting a character that cannot start `p` in front of a string
      without `p` does not create an occurrence of `p`. */
  lemma ContainsCons(c: char, s: string, p: string)
    requires p != [] && p[0] != c && !Contains(s, p)
    ensures !Contains([c] + s, p)
  {
    var t := [c] + s;
    assert t[1..] == s;
    assert t[0] != p[0];
  }

  /** Without an occurrence of sep, nothing is cut off. */
  lemma {:induction false} BeforeFirstAbsent(s: string, sep: string)
    requires !Contains(s, sep)
    ensures BeforeFirst(s, sep) == s
  {
    if s != [] {
      BeforeFirstAbsent(s[1..], sep);
    }
  }
}
