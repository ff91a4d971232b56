/** The handful of Python string operations the pipeline relies on,
    written out with Python's semantics (slicing never fails, `replace`
    and `split` work left to right without overlaps). */
module PyStr {

  predicate StartsWith(s: string, p: string) {
    |p| <= |s| && s[..|p|] == p
  }

  predicate EndsWith(s: string, p: string) {
    |p| <= |s| && s[|s| - |p|..] == p
  }

  /** Python's `p in s`. */
  predicate Contains(s: string, p: string)
    decreases |s|
  {
    StartsWith(s, p) || (s != [] && Contains(s[1..], p))
  }

  /** Python's `s[:-n]` for n >= 1: drops the last n characters, and
      gives the empty string when s is not longer than n. */
  function DropLast(s: string, n: nat): (r: string)
    requires n >= 1
    ensures |s| <= n ==> r == []
    ensures |s| > n ==> |r| == |s| - n && s == r + s[|s| - n..]
  {
    if |s| <= n then [] else s[..|s| - n]
  }

  /** Python's `s[a:]` for a >= 0: empty when a is past the end. */
  function SliceFrom(s: string, a: nat): (r: string)
    ensures a <= |s| ==> s == s[..a] + r
    ensures a >= |s| ==> r == []
  {
    if a >= |s| then [] else s[a..]
  }

  /** Python's `s.replace(pat, "")` for a non-empty pattern. */
  function RemoveAll(s: string, pat: string): (r: string)
    requires pat != []
    ensures |r| <= |s|
    ensures !Contains(s, pat) ==> r == s
    decreases |s|
  {
    if |s| < |pat| then s
    else if s[..|pat|] == pat then RemoveAll(s[|pat|..], pat)
    else [s[0]] + RemoveAll(s[1..], pat)
  }

  /** A string shorter than a pattern does not contain it. */
  lemma {:induction false} ShorterDoesNotContain(s: string, p: string)
    requires |s| < |p|
    ensures !Contains(s, p)
    decreases |s|
  {
    if s != [] {
      ShorterDoesNotContain(s[1..], p);
    }
  }

  /** Python's `s.split(sep)` for a non-empty separator. */
  function SplitOn(s: string, sep: string): (r: seq<string>)
    requires sep != []
    ensures |r| >= 1
    ensures |r[0]| <= |s| && r[0] == s[..|r[0]|]
    ensures forall i :: 0 <= i < |r| ==> !Contains(r[i], sep)
    decreases |s|
  {
    if |s| < |sep| then ShorterDoesNotContain(s, sep); [s]
    else if s[..|sep|] == sep then [[]] + SplitOn(s[|sep|..], sep)
    else
      var rest := SplitOn(s[1..], sep);
      [[s[0]] + rest[0]] + rest[1..]
  }

  /** Python's `sep.join(xs)`. */
  function Join(sep: string, xs: seq<string>): (r: string)
    decreases |xs|
  {
    if xs == [] then []
    else if |xs| == 1 then xs[0]
    else xs[0] + sep + Join(sep, xs[1..])
  }

  lemma JoinConsChar(sep: string, c: char, x: string, xs: seq<string>)
    ensures Join(sep, [[c] + x] + xs) == [c] + Join(sep, [x] + xs)
  {
    if xs != [] {
      assert ([[c] + x] + xs)[1..] == xs;
      assert ([x] + xs)[1..] == xs;
    }
  }

  /** Splitting on a separator and joining with it gives the string back. */
  lemma {:induction false} JoinSplitOn(s: string, sep: string)
    requires sep != []
    ensures Join(sep, SplitOn(s, sep)) == s
    decreases |s|
  {
    if |s| < |sep| {
    } else if s[..|sep|] == sep {
      var rest := SplitOn(s[|sep|..], sep);
      JoinSplitOn(s[|sep|..], sep);
      assert ([[]] + rest)[1..] == rest;
      calc {
        Join(sep, [[]] + rest);
        [] + sep + Join(sep, rest);
        sep + s[|sep|..];
        s[..|sep|] + s[|sep|..];
        s;
      }
    } else {
      var rest := SplitOn(s[1..], sep);
      JoinSplitOn(s[1..], sep);
      JoinConsChar(sep, s[0], rest[0], rest[1..]);
      assert [rest[0]] + rest[1..] == rest;
      assert [s[0]] + s[1..] == s;
    }
  }

  /** Removing every occurrence of a pattern is joining the pieces
      between its occurrences with nothing: together with JoinSplitOn
      and SplitOn's ensures, `s == Join(pat, pieces)` and
      `RemoveAll(s, pat) == Join("", pieces)` where no piece contains pat. */
  lemma {:induction false} RemoveAllJoinsPieces(s: string, pat: string)
    requires pat != []
    ensures RemoveAll(s, pat) == Join("", SplitOn(s, pat))
    decreases |s|
  {
    if |s| < |pat| {
    } else if s[..|pat|] == pat {
      var rest := SplitOn(s[|pat|..], pat);
      RemoveAllJoinsPieces(s[|pat|..], pat);
      assert ([[]] + rest)[1..] == rest;
    } else {
      var rest := SplitOn(s[1..], pat);
      RemoveAllJoinsPieces(s[1..], pat);
      JoinConsChar("", s[0], rest[0], rest[1..]);
      assert [rest[0]] + rest[1..] == rest;
    }
  }

  /** Python's `str.isspace()` for one character: the ASCII controls
      \t \n \v \f \r, the separators \x1c-\x1f, space, and the Unicode
      white-space characters. */
  predicate IsSpace(c: char) {
    c == ' ' || ('\t' <= c <= '\r') || ('\U{1c}' <= c <= '\U{1f}')
    || c == '\U{85}' || c == '\U{a0}' || c == '\U{1680}'
    || ('\U{2000}' <= c <= '\U{200a}') || c == '\U{2028}' || c == '\U{2029}'
    || c == '\U{202f}' || c == '\U{205f}' || c == '\U{3000}'
  }

  predicate NoSpace(w: string) {
    forall i :: 0 <= i < |w| ==> !IsSpace(w[i])
  }

  /** The longest prefix without white space. */
  function LeadingWord(s: string): (r: string)
    ensures |r| <= |s| && r == s[..|r|] && NoSpace(r)
    ensures |r| < |s| ==> IsSpace(s[|r|])
    ensures s != [] && !IsSpace(s[0]) ==> r != []
    decreases |s|
  {
    if s == [] || IsSpace(s[0]) then [] else [s[0]] + LeadingWord(s[1..])
  }

  /** Python's `s.split()` with no argument: the maximal runs of
      non-white-space characters, in order. */
  function Words(s: string): (r: seq<string>)
    ensures forall w :: w in r ==> w != [] && NoSpace(w)
    decreases |s|
  {
    if s == [] then []
    else if IsSpace(s[0]) then Words(s[1..])
    else
      var w := LeadingWord(s);
      [w] + Words(s[|w|..])
  }

  lemma {:induction false} LeadingWordOfWord(w: string)
    requires NoSpace(w)
    ensures LeadingWord(w) == w
    decreases |w|
  {
    if w != [] {
      LeadingWordOfWord(w[1..]);
      assert [w[0]] + w[1..] == w;
    }
  }

  /** A single run of non-white-space characters is one word. */
  lemma WordsOfWord(w: string)
    requires w != [] && NoSpace(w)
    ensures Words(w) == [w]
  {
    LeadingWordOfWord(w);
    assert w[|w|..] == [];
  }

  /** A text made only of white space has no words. */
  lemma {:induction false} WordsOfSpaces(s: string)
    requires forall i :: 0 <= i < |s| ==> IsSpace(s[i])
    ensures Words(s) == []
    decreases |s|
  {
    if s != [] {
      WordsOfSpaces(s[1..]);
    }
  }

  /** Leading white space does not change the words. */
  lemma WordsSkipSpace(c: char, s: string)
    requires IsSpace(c)
    ensures Words([c] + s) == Words(s)
  {
    assert ([c] + s)[1..] == s;
  }

  /** `len([word for word in s.split() if word])`. */
  function WordCount(s: string): nat {
    |Words(s)|
  }

  lemma LeadingWordAppendSpace(t: string, b: string)
    ensures LeadingWord(t + [' '] + b) == LeadingWord(t)
    decreases |t|
  {
    if t != [] && !IsSpace(t[0]) {
      assert (t + [' '] + b)[1..] == t[1..] + [' '] + b;
      LeadingWordAppendSpace(t[1..], b);
    }
  }

  /** Joining two texts with one space joins their word lists. */
  lemma {:induction false} WordsJoin(a: string, b: string)
    ensures Words(a + [' '] + b) == Words(a) + Words(b)
    decreases |a|
  {
    var s := a + [' '] + b;
    if a == [] {
      assert s == [' '] + b;
      assert s[1..] == b;
    } else if IsSpace(a[0]) {
      assert s[1..] == a[1..] + [' '] + b;
      WordsJoin(a[1..], b);
    } else {
      WordsJoin(a[|LeadingWord(a)|..], b);
      WordsJoinWord(a, b);
    }
  }

  /** The step of WordsJoin where `a` starts with a word. */
  lemma WordsJoinWord(a: string, b: string)
    requires a != [] && !IsSpace(a[0])
    requires var rest := a[|LeadingWord(a)|..]; Words(rest + [' '] + b) == Words(rest) + Words(b)
    ensures Words(a + [' '] + b) == Words(a) + Words(b)
  {
    var s := a + [' '] + b;
    var w := LeadingWord(a);
    LeadingWordAppendSpace(a, b);
    assert s[|w|..] == a[|w|..] + [' '] + b;
    assert Words(a) + Words(b) == [w] + (Words(a[|w|..]) + Words(b));
  }

  /** The number of words of two texts joined by a space is the sum. */
  lemma WordCountJoin(a: string, b: string)
    ensures WordCount(a + [' '] + b) == WordCount(a) + WordCount(b)
  {
    WordsJoin(a, b);
  }
}
