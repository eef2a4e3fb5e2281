/**
 * The pieces of Python's `str` behaviour that the extraction code relies on:
 * substring tests, prefix and suffix tests, `strip`/`lstrip`/`rstrip` with a
 * character set, deleting characters, `split` on a character or on a word, and
 * `" ".join`. A Python `str` is a sequence of code points, which is exactly a
 * Dafny `string` (a `seq<char>` of Unicode scalar values).
 */
module PyText {

  /** No element occurs twice. */
  predicate Distinct<T(==)>(s: seq<T>)
  {
    forall i, j | 0 <= i < j < |s| :: s[i] != s[j]
  }

  /** Position of the first occurrence of `x` in `s`: `s.index(x)`. */
  function FirstIndex<T(==)>(s: seq<T>, x: T): (r: nat)
    requires x in s
    ensures r < |s| && s[r] == x
    ensures forall k | 0 <= k < r :: s[k] != x
  {
    if s[0] == x then 0 else 1 + FirstIndex(s[1..], x)
  }

  /**
   * The elements of `s` without repeats, each at its first occurrence: the
   * `if x not in out: out.append(x)` idiom, and the order this model gives to
   * `list(set(s))`.
   */
  function Dedup<T(==, !new)>(s: seq<T>): (r: seq<T>)
    ensures Distinct(r)
    ensures forall x :: x in r <==> x in s
    ensures Distinct(s) ==> r == s
  {
    if s == [] then []
    else
      var d := Dedup(s[..|s| - 1]);
      var x := s[|s| - 1];
      assert s == s[..|s| - 1] + [x];
      if x in d then d else d + [x]
  }

  /**
   * The characters for which Python's `str.isspace()` is true. The no-argument
   * `strip()` removes these, and the regular-expression class `\s` matches
   * exactly these on `str` patterns.
   */
  const Whitespace: set<char> :=
    { '\t', '\n', '\U{000B}', '\U{000C}', '\r',
      '\U{001C}', '\U{001D}', '\U{001E}', '\U{001F}', ' ',
      '\U{0085}', '\U{00A0}', '\U{1680}',
      '\U{2000}', '\U{2001}', '\U{2002}', '\U{2003}', '\U{2004}', '\U{2005}',
      '\U{2006}', '\U{2007}', '\U{2008}', '\U{2009}', '\U{200A}',
      '\U{2028}', '\U{2029}', '\U{202F}', '\U{205F}', '\U{3000}' }

  /** The ASCII letters and digits, the class `[0-9A-Za-z]`. */
  const AsciiAlnum: set<char> := set c: char | ('0' <= c <= '9') || ('A' <= c <= 'Z') || ('a' <= c <= 'z')

  /** `w` occurs in `s` starting at index `i`. */
  predicate OccursAt(s: string, w: string, i: nat)
  {
    i + |w| <= |s| && s[i..i + |w|] == w
  }

  /** Python's `w in s` for strings. */
  predicate Contains(s: string, w: string)
  {
    exists i: nat | i <= |s| :: OccursAt(s, w, i)
  }

  /** Python's `s.startswith(p)`. */
  predicate StartsWith(s: string, p: string)
  {
    OccursAt(s, p, 0)
  }

  /** Python's `s.endswith(p)`. */
  predicate EndsWith(s: string, p: string)
  {
    |p| <= |s| && OccursAt(s, p, |s| - |p|)
  }

  /** `t` is a contiguous piece of `s`. */
  ghost predicate IsSlice(t: string, s: string)
  {
    exists i: nat, j: nat | i <= j <= |s| :: t == s[i..j]
  }

  /** No character of `s` is in `cs`. */
  predicate NoneIn(s: string, cs: set<char>)
  {
    forall k | 0 <= k < |s| :: s[k] !in cs
  }

  /** Python's `s.lstrip(chars)`: drops the longest prefix made of characters of `cs`. */
  function LStrip(s: string, cs: set<char>): (r: string)
    ensures |r| <= |s| && r == s[|s| - |r|..]
    ensures r != [] ==> r[0] !in cs
    ensures forall k | 0 <= k < |s| - |r| :: s[k] in cs
  {
    if s != [] && s[0] in cs then
      var r := LStrip(s[1..], cs);
      assert s[1..][|s| - 1 - |r|..] == s[|s| - |r|..];
      assert forall k | 1 <= k < |s| :: s[k] == s[1..][k - 1];
      r
    else s
  }

  /** Python's `s.rstrip(chars)`: drops the longest suffix made of characters of `cs`. */
  function RStrip(s: string, cs: set<char>): (r: string)
    ensures |r| <= |s| && r == s[..|r|]
    ensures r != [] ==> r[|r| - 1] !in cs
    ensures forall k | |r| <= k < |s| :: s[k] in cs
  {
    if s != [] && s[|s| - 1] in cs then RStrip(s[..|s| - 1], cs) else s
  }

  /** `r` is `s` with a prefix of `i` characters of `cs` and a suffix of characters of `cs` removed. */
  predicate TrimmedOf(s: string, cs: set<char>, i: nat, r: string)
  {
    && i + |r| <= |s| && r == s[i..i + |r|]
    && (forall k | 0 <= k < i :: s[k] in cs)
    && (forall k | i + |r| <= k < |s| :: s[k] in cs)
  }

  /** Some prefix and some suffix of characters of `cs` cut from `s` leave `r`. */
  predicate TrimmedSome(s: string, cs: set<char>, r: string)
  {
    exists i: nat | i <= |s| :: TrimmedOf(s, cs, i, r)
  }

  /** Python's `s.strip(chars)`: both ends at once. */
  function StripChars(s: string, cs: set<char>): (r: string)
    ensures IsSlice(r, s)
    ensures TrimmedSome(s, cs, r)
    ensures r != [] ==> r[0] !in cs && r[|r| - 1] !in cs
    ensures (s == [] || (s[0] !in cs && s[|s| - 1] !in cs)) ==> r == s
  {
    StripFacts(s, cs);
    RStrip(LStrip(s, cs), cs)
  }

  /** The contract of `StripChars`, for `rstrip` after `lstrip`. */
  lemma StripFacts(s: string, cs: set<char>)
    ensures var r := RStrip(LStrip(s, cs), cs);
      && IsSlice(r, s) && TrimmedSome(s, cs, r)
      && (r != [] ==> r[0] !in cs && r[|r| - 1] !in cs)
      && ((s == [] || (s[0] !in cs && s[|s| - 1] !in cs)) ==> r == s)
  {
    StripBothEnds(s, cs);
    TrimmedIsSlice(s, cs, |s| - |LStrip(s, cs)|, RStrip(LStrip(s, cs), cs));
    StripEnds(s, cs);
    StripUntouched(s, cs);
  }

  /** Neither end of the stripped string is in `cs`. */
  lemma StripEnds(s: string, cs: set<char>)
    ensures var r := RStrip(LStrip(s, cs), cs);
      r != [] ==> r[0] !in cs && r[|r| - 1] !in cs
  {
    var l := LStrip(s, cs);
    var r := RStrip(l, cs);
    if r != [] {
      assert r[0] == l[0];
    }
  }

  /** `rstrip` after `lstrip` cuts a prefix and a suffix of characters of `cs`. */
  lemma StripBothEnds(s: string, cs: set<char>)
    ensures TrimmedOf(s, cs, |s| - |LStrip(s, cs)|, RStrip(LStrip(s, cs), cs))
  {
    TrimmedFrom(s, cs, LStrip(s, cs), RStrip(LStrip(s, cs), cs));
  }

  /** A prefix `r` of a suffix `l` of `s`, each cutting characters of `cs` only, trims `s`. */
  lemma TrimmedFrom(s: string, cs: set<char>, l: string, r: string)
    requires |l| <= |s| && l == s[|s| - |l|..]
    requires forall k | 0 <= k < |s| - |l| :: s[k] in cs
    requires |r| <= |l| && r == l[..|r|]
    requires forall k | |r| <= k < |l| :: l[k] in cs
    ensures TrimmedOf(s, cs, |s| - |l|, r)
  {
    var i := |s| - |l|;
    assert r == s[i..i + |r|];
    forall k | i + |r| <= k < |s| ensures s[k] in cs {
      assert s[k] == l[k - i];
    }
  }

  lemma TrimmedIsSlice(s: string, cs: set<char>, i: nat, r: string)
    requires TrimmedOf(s, cs, i, r)
    ensures TrimmedSome(s, cs, r) && IsSlice(r, s)
  {
  }

  /** A string whose ends are outside `cs` is its own `lstrip` and `rstrip`. */
  lemma StripUntouched(s: string, cs: set<char>)
    ensures (s == [] || (s[0] !in cs && s[|s| - 1] !in cs)) ==> RStrip(LStrip(s, cs), cs) == s
  {
  }

  /** Python's no-argument `s.strip()`. */
  function Strip(s: string): (r: string)
    ensures IsSlice(r, s)
    ensures TrimmedSome(s, Whitespace, r)
    ensures r != [] ==> r[0] !in Whitespace && r[|r| - 1] !in Whitespace
  {
    StripChars(s, Whitespace)
  }

  /** Deletes every character of `cs`: `re.sub("[cs]+", "", s)` or a chain of `replace(c, "")`. */
  function RemoveChars(s: string, cs: set<char>): (r: string)
    ensures |r| <= |s|
    ensures NoneIn(r, cs)
    ensures forall k | 0 <= k < |r| :: r[k] in s
    ensures NoneIn(s, cs) ==> r == s
  {
    if s == [] then []
    else if s[0] in cs then RemoveChars(s[1..], cs)
    else [s[0]] + RemoveChars(s[1..], cs)
  }

  /**
   * Removing characters keeps every other character: the result reads off
   * `s` in order, and each character outside `cs` occurs in it as often as
   * in `s`.
   */
  lemma {:induction false} RemoveCharsKeeps(s: string, cs: set<char>)
    ensures Subsequence(RemoveChars(s, cs), s)
    ensures forall c | c !in cs :: multiset(RemoveChars(s, cs))[c] == multiset(s)[c]
    decreases |s|
  {
    if s != [] {
      var rest := RemoveChars(s[1..], cs);
      RemoveCharsKeeps(s[1..], cs);
      assert s == [s[0]] + s[1..];
      assert multiset(s) == multiset{s[0]} + multiset(s[1..]);
      if s[0] in cs {
        assert rest != [] ==> rest[0] != s[0];
      } else {
        var r := [s[0]] + rest;
        assert r[1..] == rest;
        assert multiset(r) == multiset{s[0]} + multiset(rest);
      }
    }
  }

  /** `r` can be read off `s` left to right, skipping some characters. */
  predicate Subsequence<T(==)>(r: seq<T>, s: seq<T>)
    decreases |s|
  {
    if r == [] then true
    else if s == [] then false
    else if r[0] == s[0] then Subsequence(r[1..], s[1..])
    else Subsequence(r, s[1..])
  }

  /** The longest prefix of `s` with no character of `cs`: `re.split("[cs]", s)[0]`. */
  function PrefixBefore(s: string, cs: set<char>): (r: string)
    ensures |r| <= |s| && r == s[..|r|]
    ensures NoneIn(r, cs)
    ensures |r| < |s| ==> s[|r|] in cs
  {
    if s == [] || s[0] in cs then [] else [s[0]] + PrefixBefore(s[1..], cs)
  }

  /**
   * Python's `s.split(sep)[-1]` for a non-empty separator: the text after the
   * last of the occurrences that a left-to-right split finds.
   */
  function LastPiece(s: string, sep: string): (r: string)
    requires sep != []
    ensures |r| <= |s| && r == s[|s| - |r|..]
    ensures !Contains(r, sep)
    ensures !Contains(s, sep) ==> r == s
    decreases |s|
  {
    if !Contains(s, sep) then s
    else if StartsWith(s, sep) then LastPiece(s[|sep|..], sep)
    else LastPiece(s[1..], sep)
  }

  /** Python's `s.split(c)` for a one-character separator. */
  function Split(s: string, c: char): (parts: seq<string>)
    ensures |parts| >= 1
    ensures forall k | 0 <= k < |parts| :: c !in parts[k]
    decreases |s|
  {
    var head := PrefixBefore(s, {c});
    if |head| == |s| then [s] else [head] + Split(s[|head| + 1..], c)
  }

  /** Python's `sep.join(parts)` for a one-character separator. */
  function Join(parts: seq<string>, sep: char): string
  {
    if parts == [] then []
    else if |parts| == 1 then parts[0]
    else parts[0] + [sep] + Join(parts[1..], sep)
  }

  /** ASCII case folding, the part of `str.lower()` the model relies on. */
  function LowerChar(c: char): char
  {
    if 'A' <= c <= 'Z' then (c as int + 32) as char else c
  }

  function Lower(s: string): (r: string)
    ensures |r| == |s|
    ensures forall k | 0 <= k < |s| :: r[k] == LowerChar(s[k])
  {
    if s == [] then [] else [LowerChar(s[0])] + Lower(s[1..])
  }

  // ---------------------------------------------------------------------------
  // Facts about slices, used to carry "never contains" properties through the
  // clean-up steps.

  lemma SliceOfSlice(a: string, b: string, c: string)
    requires IsSlice(a, b) && IsSlice(b, c)
    ensures IsSlice(a, c)
  {
    var i: nat, j: nat :| i <= j <= |b| && a == b[i..j];
    var k: nat, l: nat :| k <= l <= |c| && b == c[k..l];
    assert k + j <= l;
    forall m | 0 <= m < |a| ensures a[m] == c[k + i + m] {
      assert a[m] == b[i + m];
    }
    assert a == c[k + i..k + j];
  }

  lemma PrefixIsSlice(s: string, n: nat)
    requires n <= |s|
    ensures IsSlice(s[..n], s)
  {
    assert s[..n] == s[0..n];
  }

  lemma SuffixIsSlice(s: string, n: nat)
    requires n <= |s|
    ensures IsSlice(s[n..], s)
  {
    assert s[n..] == s[n..|s|];
  }

  lemma SelfIsSlice(s: string)
    ensures IsSlice(s, s)
  {
    assert s == s[0..|s|];
  }

  /** A word absent from a string is absent from each of its slices. */
  lemma AbsentFromSlice(t: string, s: string, w: string)
    requires IsSlice(t, s) && !Contains(s, w)
    ensures !Contains(t, w)
  {
    var i: nat, j: nat :| i <= j <= |s| && t == s[i..j];
    forall k: nat | k <= |t| && OccursAt(t, w, k) ensures OccursAt(s, w, i + k) {
      forall m | 0 <= m < |w| ensures s[i + k + m] == w[m] {
        assert t[k + m] == w[m];
        assert t[k + m] == s[i + k + m];
      }
      assert s[i + k..i + k + |w|] == w;
    }
  }

  /** Characters absent from a string are absent from each of its slices. */
  lemma NoneInSlice(t: string, s: string, cs: set<char>)
    requires IsSlice(t, s) && NoneIn(s, cs)
    ensures NoneIn(t, cs)
  {
    var i: nat, j: nat :| i <= j <= |s| && t == s[i..j];
    forall k | 0 <= k < |t| ensures t[k] !in cs {
      assert t[k] == s[i + k];
    }
  }

  /** Every character of a slice occurs in the whole. */
  lemma SliceChars(t: string, s: string)
    requires IsSlice(t, s)
    ensures forall k | 0 <= k < |t| :: t[k] in s
  {
    var i: nat, j: nat :| i <= j <= |s| && t == s[i..j];
    forall k | 0 <= k < |t| ensures t[k] in s {
      assert t[k] == s[i + k];
    }
  }

  /** For a one-character needle, `Contains` is membership. */
  lemma ContainsChar(s: string, c: char)
    ensures Contains(s, [c]) <==> c in s
  {
    if c in s {
      var i :| 0 <= i < |s| && s[i] == c;
      assert OccursAt(s, [c], i);
    }
    if Contains(s, [c]) {
      var i: nat :| i <= |s| && OccursAt(s, [c], i);
      assert s[i] == s[i..i + 1][0];
    }
  }

  /** A needle whose first character is absent does not occur. */
  lemma AbsentHead(s: string, w: string)
    requires w != [] && w[0] !in s
    ensures !Contains(s, w)
  {
    forall i: nat | i <= |s| ensures !OccursAt(s, w, i) {
      if i < |s| {
        assert s[i] != w[0];
      }
    }
  }

  lemma ContainsSelf(s: string)
    ensures Contains(s, s)
  {
    assert OccursAt(s, s, 0);
  }

  /** `lstrip`/`rstrip`/`strip` leave a string alone when its ends are not in the set. */
  lemma StripCharsIdempotent(s: string, cs: set<char>)
    ensures StripChars(StripChars(s, cs), cs) == StripChars(s, cs)
  {
  }

  /** A joined sequence of pieces contains a character only if a piece does. */
  lemma {:induction false} JoinExcludes(parts: seq<string>, sep: char, c: char)
    requires c != sep
    requires forall k | 0 <= k < |parts| :: c !in parts[k]
    ensures c !in Join(parts, sep)
  {
    if |parts| > 1 {
      JoinExcludes(parts[1..], sep, c);
    }
  }

  /** An element of a prefix has its first occurrence inside the prefix. */
  lemma FirstIndexPrefix<T>(s: seq<T>, n: nat, x: T)
    requires n <= |s| && x in s[..n]
    ensures FirstIndex(s, x) == FirstIndex(s[..n], x)
  {
    var a := FirstIndex(s, x);
    var b := FirstIndex(s[..n], x);
    assert s[b] == x;
    assert a <= b;
    assert s[..n][a] == x;
  }
}
