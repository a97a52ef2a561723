/** The pieces of Python's `str` behaviour that the parsers rely on:
    whitespace classification, `strip`, `rstrip(c)`, `startswith`, the
    substring test `n in s`, `split()` with no argument, `" ".join` and
    `splitlines()`. Strings are sequences of Unicode scalar values. */
module Text {

  /** The characters for which Python's `str.isspace()` holds; the regular
      expression class `\s` and `str.split()` use the same set. */
  predicate IsSpace(c: char) {
    || c == ' ' || c == '\t' || c == '\n' || c == '\r'
    || c == '\U{0B}' || c == '\U{0C}'
    || c == '\U{1C}' || c == '\U{1D}' || c == '\U{1E}' || c == '\U{1F}'
    || c == '\U{85}' || c == '\U{A0}' || c == '\U{1680}'
    || ('\U{2000}' <= c <= '\U{200A}')
    || c == '\U{2028}' || c == '\U{2029}' || c == '\U{202F}' || c == '\U{205F}'
    || c == '\U{3000}'
  }

  /** The line boundaries recognised by `str.splitlines()` (`\r\n` is
      handled as one boundary by `Lines`). */
  predicate IsLineBreak(c: char) {
    || c == '\n' || c == '\r' || c == '\U{0B}' || c == '\U{0C}'
    || c == '\U{1C}' || c == '\U{1D}' || c == '\U{1E}'
    || c == '\U{85}' || c == '\U{2028}' || c == '\U{2029}'
  }

  predicate NoSpace(s: string) {
    forall i :: 0 <= i < |s| ==> !IsSpace(s[i])
  }

  predicate IsBlank(s: string) {
    forall i :: 0 <= i < |s| ==> IsSpace(s[i])
  }

  /** `s.startswith(p)` */
  predicate StartsWith(s: string, p: string) {
    |p| <= |s| && s[..|p|] == p
  }

  /** `n in s` for strings: `n` occurs somewhere in `s`. */
  predicate Contains(s: string, n: string)
    decreases |s|
  {
    StartsWith(s, n) || (|s| > 0 && Contains(s[1..], n))
  }

  /** `n` occurs in `s` starting at index `i`. */
  predicate OccursAt(s: string, n: string, i: nat) {
    i + |n| <= |s| && s[i..i + |n|] == n
  }

  /** `Contains` holds exactly when `n` occurs at some position of `s`. */
  lemma {:induction false} ContainsAt(s: string, n: string)
    ensures Contains(s, n) <==> exists i: nat :: OccursAt(s, n, i)
    decreases |s|
  {
    if |s| > 0 {
      ContainsAt(s[1..], n);
      if exists i: nat :: OccursAt(s, n, i) {
        var i: nat :| OccursAt(s, n, i);
        if i > 0 {
          assert OccursAt(s[1..], n, i - 1) by {
            assert s[1..][i - 1..i - 1 + |n|] == s[i..i + |n|];
          }
        }
      }
      if StartsWith(s, n) {
        assert OccursAt(s, n, 0);
      }
      if Contains(s[1..], n) && !StartsWith(s, n) {
        var i: nat :| OccursAt(s[1..], n, i);
        assert OccursAt(s, n, i + 1) by {
          assert s[i + 1..i + 1 + |n|] == s[1..][i..i + |n|];
        }
      }
    } else {
      if exists i: nat :: OccursAt(s, n, i) {
        var i: nat :| OccursAt(s, n, i);
        assert i == 0 && StartsWith(s, n);
      }
      if Contains(s, n) {
        assert OccursAt(s, n, 0);
      }
    }
  }

  function LStrip(s: string): (r: string)
    ensures |r| <= |s| && r == s[|s| - |r|..]
    ensures r == [] || !IsSpace(r[0])
    ensures IsBlank(s[..|s| - |r|])
  {
    if s != [] && IsSpace(s[0]) then
      var r := LStrip(s[1..]);
      LStripStep(s, r);
      r
    else s
  }

  function RStrip(s: string): (r: string)
    ensures |r| <= |s| && r == s[..|r|]
    ensures r == [] || !IsSpace(r[|r| - 1])
    ensures IsBlank(s[|r|..])
  {
    if s != [] && IsSpace(s[|s| - 1]) then
      var r := RStrip(s[..|s| - 1]);
      RStripStep(s, r);
      r
    else s
  }

  lemma LStripStep(s: string, r: string)
    requires s != [] && IsSpace(s[0])
    requires |r| <= |s| - 1 && r == s[1..][|s| - 1 - |r|..]
    requires IsBlank(s[1..][..|s| - 1 - |r|])
    ensures r == s[|s| - |r|..] && IsBlank(s[..|s| - |r|])
  {
    var t := s[1..];
    var m := |s| - |r|;
    assert t[m - 1..] == s[m..];
    forall k | 0 <= k < m ensures IsSpace(s[..m][k]) {
      if k > 0 { assert s[k] == t[..m - 1][k - 1]; }
    }
  }

  lemma RStripStep(s: string, r: string)
    requires s != [] && IsSpace(s[|s| - 1])
    requires |r| <= |s| - 1 && r == s[..|s| - 1][..|r|]
    requires IsBlank(s[..|s| - 1][|r|..])
    ensures r == s[..|r|] && IsBlank(s[|r|..])
  {
    var t := s[..|s| - 1];
    var m := |r|;
    assert t[..m] == s[..m];
    var u := s[m..];
    forall k | 0 <= k < |u| ensures IsSpace(u[k]) {
      if m + k < |s| - 1 { assert u[k] == t[m..][k]; }
    }
  }

  /** `s.strip()`: `s` without its leading and trailing whitespace. */
  function Strip(s: string): (r: string)
    ensures r == [] || (!IsSpace(r[0]) && !IsSpace(r[|r| - 1]))
  {
    RStrip(LStrip(s))
  }

  /** A string strips to nothing exactly when it is all whitespace, which is
      what `not s.strip()` tests. */
  lemma StripEmptyIffBlank(s: string)
    ensures Strip(s) == [] <==> IsBlank(s)
  {
    var l := LStrip(s);
    if Strip(s) == [] {
      assert l == [];
      assert s == s[..|s| - |l|];
    }
  }

  /** A non-empty text with no whitespace at either end. */
  predicate Trimmed(s: string) {
    s != [] && !IsSpace(s[0]) && !IsSpace(s[|s| - 1])
  }

  /** A string with no whitespace at either end is its own `strip()`. */
  lemma StripOfTrimmed(s: string)
    requires Trimmed(s)
    ensures Strip(s) == s
  {
  }

  /** A substring that neither starts nor ends with whitespace survives
      `strip()`: `n in s.strip()` whenever `n` occurs in `s`. */
  lemma OccursInStrip(s: string, n: string, i: nat)
    requires Trimmed(n) && OccursAt(s, n, i)
    ensures Contains(Strip(s), n)
  {
    var j := OccursInLStrip(s, n, i);
    var k := OccursInRStrip(LStrip(s), n, j);
    ContainsAt(Strip(s), n);
  }

  /** Stripping neither adds nor removes an occurrence of a text that
      neither starts nor ends with whitespace. */
  lemma StripKeepsContains(s: string, n: string)
    requires Trimmed(n)
    ensures Contains(Strip(s), n) <==> Contains(s, n)
  {
    if Contains(Strip(s), n) {
      ContainsOfStrip(s, n);
    }
    if Contains(s, n) {
      ContainsAt(s, n);
      var i: nat :| OccursAt(s, n, i);
      OccursInStrip(s, n, i);
    }
  }

  /** Whatever the stripped string contains, the string contains too. */
  lemma ContainsOfStrip(s: string, n: string)
    requires Contains(Strip(s), n)
    ensures Contains(s, n)
  {
    var l := LStrip(s);
    var r := RStrip(l);
    ContainsAt(r, n);
    var i: nat :| OccursAt(r, n, i);
    var off := |s| - |l|;
    SliceOfSuffix(s, off, |r|);
    OccursInSlice(s, off, off + |r|, n, i);
    ContainsAt(s, n);
  }

  lemma SliceOfSuffix(s: string, off: nat, m: nat)
    requires off + m <= |s|
    ensures s[off..][..m] == s[off..off + m]
  {
  }

  /** An occurrence inside a slice is an occurrence in the whole. */
  lemma OccursInSlice(s: string, a: nat, b: nat, n: string, i: nat)
    requires a <= b <= |s| && OccursAt(s[a..b], n, i)
    ensures OccursAt(s, n, a + i)
  {
    var t := s[a..b];
    assert t[i..i + |n|] == n;
    forall k | 0 <= k < |n| ensures s[a + i..a + i + |n|][k] == n[k] {
      assert n[k] == t[i + k];
    }
  }

  /** `lstrip()` keeps an occurrence that does not start with whitespace. */
  lemma OccursInLStrip(s: string, n: string, i: nat) returns (j: nat)
    requires n != [] && !IsSpace(n[0]) && OccursAt(s, n, i)
    ensures OccursAt(LStrip(s), n, j)
  {
    var l := LStrip(s);
    var off := |s| - |l|;
    assert s[i] == n[0] by { assert s[i..i + |n|][0] == n[0]; }
    BlankPrefixAt(s, off, i);
    j := i - off;
    assert l[j..j + |n|] == s[i..i + |n|];
  }

  lemma BlankPrefixAt(s: string, off: nat, i: nat)
    requires off <= |s| && i < |s| && IsBlank(s[..off])
    ensures i < off ==> IsSpace(s[i])
  {
    if i < off { assert s[..off][i] == s[i]; }
  }

  /** `rstrip()` keeps an occurrence that does not end with whitespace. */
  lemma OccursInRStrip(l: string, n: string, j: nat) returns (k: nat)
    requires n != [] && !IsSpace(n[|n| - 1]) && OccursAt(l, n, j)
    ensures OccursAt(RStrip(l), n, k)
  {
    var r := RStrip(l);
    assert l[j + |n| - 1] == n[|n| - 1] by { assert l[j..j + |n|][|n| - 1] == n[|n| - 1]; }
    k := j;
    assert r[j..j + |n|] == l[j..j + |n|];
  }

  /** `s.rstrip(c)` for a single character `c`. */
  function RStripChar(s: string, c: char): (r: string)
    ensures |r| <= |s| && r == s[..|r|]
    ensures r == [] || r[|r| - 1] != c
    ensures forall i :: |r| <= i < |s| ==> s[i] == c
  {
    if s != [] && s[|s| - 1] == c then RStripChar(s[..|s| - 1], c) else s
  }

  /** Number of whitespace characters in `s` from index `j` (`\s*`). */
  function SpaceRun(s: string, j: nat): (n: nat)
    requires j <= |s|
    ensures j + n <= |s|
    ensures j + n < |s| ==> !IsSpace(s[j + n])
    decreases |s| - j
  {
    if j < |s| && IsSpace(s[j]) then 1 + SpaceRun(s, j + 1) else 0
  }

  /** Length of the longest prefix of `s` without whitespace. */
  function TokenLen(s: string): (n: nat)
    ensures n <= |s|
    ensures forall i :: 0 <= i < n ==> !IsSpace(s[i])
    ensures n < |s| ==> IsSpace(s[n])
  {
    if s == [] || IsSpace(s[0]) then 0 else 1 + TokenLen(s[1..])
  }

  /** `s.split()`: the maximal runs of non-whitespace characters, in order. */
  function Words(s: string): (ws: seq<string>)
    ensures forall i :: 0 <= i < |ws| ==> ws[i] != [] && NoSpace(ws[i])
    decreases |s|
  {
    if s == [] then []
    else if IsSpace(s[0]) then Words(s[1..])
    else
      var n := TokenLen(s);
      [s[..n]] + Words(s[n..])
  }

  /** `sep.join(xs)` */
  function Join(xs: seq<string>, sep: string): string {
    if |xs| == 0 then []
    else if |xs| == 1 then xs[0]
    else xs[0] + sep + Join(xs[1..], sep)
  }

  /** Joining words with single spaces and splitting again gives the words
      back; this is why the sources parser may rebuild the tail of a row
      with `" ".join` without losing a token. */
  lemma {:induction false} WordsOfJoin(ws: seq<string>)
    requires forall i :: 0 <= i < |ws| ==> ws[i] != [] && NoSpace(ws[i])
    ensures Words(Join(ws, " ")) == ws
  {
    if |ws| == 0 {
    } else if |ws| == 1 {
      WordsOfWord(ws[0], []);
      assert ws[0] + [] == ws[0];
    } else {
      WordsOfJoin(ws[1..]);
      var rest := " " + Join(ws[1..], " ");
      assert ws[0] + " " + Join(ws[1..], " ") == ws[0] + rest;
      WordsOfWord(ws[0], rest);
      assert Words(rest) == Words(rest[1..]);
      assert rest[1..] == Join(ws[1..], " ");
    }
  }

  /** A word followed by text that starts with whitespace (or nothing) is
      split off as one token. */
  lemma WordsOfWord(w: string, rest: string)
    requires w != [] && NoSpace(w)
    requires rest == [] || IsSpace(rest[0])
    ensures Words(w + rest) == [w] + Words(rest)
  {
    var s := w + rest;
    TokenLenOf(w, rest);
    assert s[..|w|] == w && s[|w|..] == rest;
  }

  lemma {:induction false} TokenLenOf(w: string, rest: string)
    requires NoSpace(w)
    requires rest == [] || IsSpace(rest[0])
    ensures TokenLen(w + rest) == |w|
  {
    if w != [] {
      assert (w + rest)[1..] == w[1..] + rest;
      TokenLenOf(w[1..], rest);
    } else {
      assert w + rest == rest;
    }
  }

  /** Length of the longest prefix of `s` without a line boundary. */
  function LineLen(s: string): (n: nat)
    ensures n <= |s|
    ensures forall i :: 0 <= i < n ==> !IsLineBreak(s[i])
    ensures n < |s| ==> IsLineBreak(s[n])
  {
    if s == [] || IsLineBreak(s[0]) then 0 else 1 + LineLen(s[1..])
  }

  /** `s.splitlines()`: the text between line boundaries, `\r\n` counting as
      one boundary and a final boundary not starting an extra empty line. */
  function Lines(s: string): (ls: seq<string>)
    ensures forall i, j :: 0 <= i < |ls| && 0 <= j < |ls[i]| ==> !IsLineBreak(ls[i][j])
    ensures s == [] <==> ls == []
    decreases |s|
  {
    if s == [] then []
    else
      var n := LineLen(s);
      if n == |s| then [s]
      else
        var k := if s[n] == '\r' && n + 1 < |s| && s[n + 1] == '\n' then n + 2 else n + 1;
        [s[..n]] + Lines(s[k..])
  }

  predicate NoLineBreak(s: string) {
    forall i :: 0 <= i < |s| ==> !IsLineBreak(s[i])
  }

  lemma {:induction false} LineLenOf(a: string, rest: string)
    requires NoLineBreak(a)
    requires rest == [] || IsLineBreak(rest[0])
    ensures LineLen(a + rest) == |a|
  {
    if a != [] {
      assert (a + rest)[1..] == a[1..] + rest;
      LineLenOf(a[1..], rest);
    } else {
      assert a + rest == rest;
    }
  }

  /** Text without a line boundary is one line. */
  lemma LinesOfLine(a: string)
    requires a != [] && NoLineBreak(a)
    ensures Lines(a) == [a]
  {
    LineLenOf(a, []);
    assert a + [] == a;
  }

  /** A one-character boundary ends the line before it; a `\r` counts alone
      only when no `\n` follows it. */
  lemma LinesOfBreak(a: string, c: char, b: string)
    requires NoLineBreak(a) && IsLineBreak(c)
    requires c == '\r' ==> b == [] || b[0] != '\n'
    ensures Lines(a + [c] + b) == [a] + Lines(b)
  {
    var s := a + [c] + b;
    var n := |a|;
    LineLenOf(a, [c] + b);
    assert s == a + ([c] + b);
    assert s[..n] == a && s[n] == c && s[n + 1..] == b;
    assert n + 1 < |s| ==> s[n + 1] == b[0];
  }

  /** `\r\n` is one boundary. */
  lemma LinesOfCrLf(a: string, b: string)
    requires NoLineBreak(a)
    ensures Lines(a + "\r\n" + b) == [a] + Lines(b)
  {
    var s := a + "\r\n" + b;
    LineLenOf(a, "\r\n" + b);
    assert s == a + ("\r\n" + b);
    assert s[..|a|] == a && s[|a|] == '\r' && s[|a| + 1] == '\n' && s[|a| + 2..] == b;
  }
}
