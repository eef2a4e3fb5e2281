/**
 * Clean-up and validation of candidate person names ("tails"): the entity
 * normaliser, the tail cleaner, the tail validity test and the scan for person
 * names that are not in the knowledge graph.
 */
module Tails {
  import opened PyText
  import opened Dictionary

  const AngleQuotes: set<char> := {'《', '》'}

  /** `_normalize_entity`: drops the book-title brackets, then surrounding whitespace. */
  function NormalizeEntity(t: string): (r: string)
    ensures NoneIn(r, AngleQuotes)
    ensures r != [] ==> r[0] !in Whitespace && r[|r| - 1] !in Whitespace
    ensures forall k | 0 <= k < |r| :: r[k] in t
  {
    if t == "" then ""
    else
      var d := RemoveChars(t, AngleQuotes);
      var r := Strip(d);
      NoneInSlice(r, d, AngleQuotes);
      SliceChars(r, d);
      r
  }

  /** Normalising twice changes nothing more. */
  lemma NormalizeIdempotent(t: string)
    ensures NormalizeEntity(NormalizeEntity(t)) == NormalizeEntity(t)
  {
  }

  // ---------------------------------------------------------------------------
  // `_clean_tail_candidate`, stated stage by stage.

  /** The separators after whose last occurrence the name is taken, in the order they are tried. */
  const TailSeparators: seq<string> := ["是", "为", "由"]

  /** The role words cut off the end of a name, in the order they are tried. */
  const RoleSuffixes: seq<string> := ["演唱者", "演唱", "主唱", "歌手"]

  /** `if sep in s: s = s.split(sep)[-1]`. */
  function AfterLast(s: string, sep: string): (r: string)
    requires sep != []
    ensures IsSlice(r, s) && !Contains(r, sep)
  {
    if Contains(s, sep) then
      var r := LastPiece(s, sep);
      SuffixIsSlice(s, |s| - |r|);
      r
    else
      SelfIsSlice(s);
      s
  }

  /** The separator loop: `AfterLast` for each separator in turn. */
  function AfterEach(s: string, seps: seq<string>): (r: string)
    requires forall k | 0 <= k < |seps| :: seps[k] != []
    ensures IsSlice(r, s)
    ensures forall k | 0 <= k < |seps| :: !Contains(r, seps[k])
  {
    if seps == [] then
      SelfIsSlice(s);
      s
    else
      var t := AfterLast(s, seps[0]);
      var r := AfterEach(t, seps[1..]);
      SliceOfSlice(r, t, s);
      AbsentFromSlice(r, t, seps[0]);
      assert forall k | 1 <= k < |seps| :: seps[k] == seps[1..][k - 1];
      r
  }

  /** `if s.endswith(suffix): s = s[:-len(suffix)]`. */
  function CutSuffix(s: string, suffix: string): (r: string)
    ensures |r| <= |s| && r == s[..|r|]
    ensures EndsWith(s, suffix) ==> r + suffix == s
    ensures !EndsWith(s, suffix) ==> r == s
  {
    if EndsWith(s, suffix) then s[..|s| - |suffix|] else s
  }

  /** The suffix loop: `CutSuffix` for each role word in turn. */
  function CutEach(s: string, suffixes: seq<string>): (r: string)
    ensures |r| <= |s| && r == s[..|r|]
    decreases |suffixes|
  {
    if suffixes == [] then s else CutEach(CutSuffix(s, suffixes[0]), suffixes[1..])
  }

  /** The first two steps: normalise, then `re.sub(r"[A-Za-z0-9]+", "", s)`. */
  function Prepared(t: string): (r: string)
    ensures NoneIn(r, AsciiAlnum) && NoneIn(r, AngleQuotes)
  {
    var normal := NormalizeEntity(t);
    var r := RemoveChars(normal, AsciiAlnum);
    assert forall k | 0 <= k < |r| :: r[k] in normal;
    r
  }

  /** The separator loop, then the same treatment for 成员. */
  function AfterMarkers(s: string): (r: string)
    ensures IsSlice(r, s)
    ensures NoneIn(r, {'是', '为', '由'}) && !Contains(r, "成员")
  {
    var afterSeps := AfterEach(s, TailSeparators);
    var r := AfterLast(afterSeps, "成员");
    SliceOfSlice(r, afterSeps, s);
    assert !Contains(afterSeps, TailSeparators[0]) && !Contains(afterSeps, TailSeparators[1])
      && !Contains(afterSeps, TailSeparators[2]);
    AbsentFromSlice(r, afterSeps, "是");
    AbsentFromSlice(r, afterSeps, "为");
    AbsentFromSlice(r, afterSeps, "由");
    ContainsChar(r, '是');
    ContainsChar(r, '为');
    ContainsChar(r, '由');
    r
  }

  /** The last steps: `lstrip("的")`, the suffix loop, `strip()`. */
  function Trimmed(s: string): (r: string)
    ensures IsSlice(r, s)
    ensures r != [] ==> r[0] !in Whitespace && r[|r| - 1] !in Whitespace
  {
    var stripped := LStrip(s, {'的'});
    var cut := CutEach(stripped, RoleSuffixes);
    var r := Strip(cut);
    SuffixIsSlice(s, |s| - |stripped|);
    PrefixIsSlice(stripped, |cut|);
    SliceOfSlice(cut, stripped, s);
    SliceOfSlice(r, cut, s);
    r
  }

  /**
   * `_clean_tail_candidate`: normalise, delete ASCII letters and digits, keep
   * what follows the last 是, 为 and 由 (in that order) and the last 成员,
   * drop leading 的, cut the role words off the end, strip whitespace.
   */
  function CleanTail(t: string): string
  {
    if t == "" then "" else Trimmed(AfterMarkers(Prepared(t)))
  }

  /**
   * What a cleaned tail can no longer contain: ASCII letters or digits, the
   * book-title brackets, the separators 是, 为, 由, or the word 成员; and it has
   * no surrounding whitespace.
   */
  lemma CleanTailShape(t: string)
    ensures NoneIn(CleanTail(t), AsciiAlnum)
    ensures NoneIn(CleanTail(t), AngleQuotes)
    ensures NoneIn(CleanTail(t), {'是', '为', '由'})
    ensures !Contains(CleanTail(t), "成员")
    ensures CleanTail(t) != [] ==> CleanTail(t)[0] !in Whitespace && CleanTail(t)[|CleanTail(t)| - 1] !in Whitespace
  {
    if t != "" {
      var p := Prepared(t);
      var m := AfterMarkers(p);
      var r := Trimmed(m);
      SliceOfSlice(r, m, p);
      NoneInSlice(r, p, AsciiAlnum);
      NoneInSlice(r, p, AngleQuotes);
      NoneInSlice(r, m, {'是', '为', '由'});
      AbsentFromSlice(r, m, "成员");
    }
  }

  /** The empty candidate is reported as empty. */
  lemma CleanTailEmpty()
    ensures CleanTail("") == ""
  {
  }

  /** An input with no whitespace loses every leading 的. */
  lemma CleanTailNoLeadingDe(t: string)
    requires NoneIn(t, Whitespace)
    ensures CleanTail(t) != [] ==> CleanTail(t)[0] != '的'
  {
    if t != "" {
      var normal := NormalizeEntity(t);
      var p := Prepared(t);
      assert forall k | 0 <= k < |p| :: p[k] in normal;
      var m := AfterMarkers(p);
      NoneInSlice(m, p, Whitespace);
      TrimmedNoLeadingDe(m);
    }
  }

  lemma TrimmedNoLeadingDe(s: string)
    requires NoneIn(s, Whitespace)
    ensures Trimmed(s) != [] ==> Trimmed(s)[0] != '的'
  {
    var stripped := LStrip(s, {'的'});
    var cut := CutEach(stripped, RoleSuffixes);
    SuffixIsSlice(s, |s| - |stripped|);
    PrefixIsSlice(stripped, |cut|);
    SliceOfSlice(cut, stripped, s);
    NoneInSlice(cut, s, Whitespace);
    assert Strip(cut) == cut;
    assert cut != [] ==> cut[0] == stripped[0];
  }

  /** A name with no brackets, letters, digits or surrounding whitespace is left as it is by the first steps. */
  lemma PreparedPlain(t: string)
    requires NoneIn(t, AngleQuotes) && NoneIn(t, AsciiAlnum)
    requires t != [] ==> t[0] !in Whitespace && t[|t| - 1] !in Whitespace
    ensures Prepared(t) == t
  {
    NormalizePlain(t);
  }

  /** A name with no brackets and no surrounding whitespace is its own normal form. */
  lemma NormalizePlain(t: string)
    requires NoneIn(t, AngleQuotes)
    requires t != [] ==> t[0] !in Whitespace && t[|t| - 1] !in Whitespace
    ensures NormalizeEntity(t) == t
  {
  }

  /** A name with none of the markers is left as it is by the marker steps. */
  lemma MarkersPlain(s: string)
    requires NoneIn(s, {'是', '为', '由', '成'})
    ensures AfterMarkers(s) == s
  {
    ContainsChar(s, '是');
    ContainsChar(s, '为');
    ContainsChar(s, '由');
    assert AfterLast(s, "是") == s;
    assert AfterLast(s, "为") == s;
    assert AfterLast(s, "由") == s;
    assert AfterEach(s, TailSeparators) == AfterEach(s, TailSeparators[1..]);
    assert AfterEach(s, TailSeparators[1..]) == AfterEach(s, TailSeparators[2..]);
    assert AfterEach(s, TailSeparators[2..]) == AfterEach(s, []);
    AbsentHead(s, "成员");
  }

  /** A name with none of the role words at its end and no 的 or whitespace at its ends is left as it is by the last steps. */
  lemma TrimmedPlain(s: string)
    requires s != [] ==> s[0] != '的' && s[0] !in Whitespace && s[|s| - 1] !in Whitespace
    requires forall k | 0 <= k < |RoleSuffixes| :: !EndsWith(s, RoleSuffixes[k])
    ensures Trimmed(s) == s
  {
    assert LStrip(s, {'的'}) == s;
    CutEachPlain(s, RoleSuffixes);
  }

  /** The suffix loop leaves a string alone when none of the words ends it. */
  lemma {:induction false} CutEachPlain(s: string, suffixes: seq<string>)
    requires forall k | 0 <= k < |suffixes| :: !EndsWith(s, suffixes[k])
    ensures CutEach(s, suffixes) == s
    decreases |suffixes|
  {
    if suffixes != [] {
      assert !EndsWith(s, suffixes[0]);
      assert forall k | 0 <= k < |suffixes[1..]| :: suffixes[1..][k] == suffixes[k + 1];
      CutEachPlain(s, suffixes[1..]);
    }
  }

  /** A word whose last character differs from the last character of `s` is not a suffix of `s`. */
  lemma LastCharDiffers(s: string, p: string)
    requires s != [] && p != [] && s[|s| - 1] != p[|p| - 1]
    ensures !EndsWith(s, p)
  {
  }

  /** A name without markers that follows a single 由 is what the marker steps keep. */
  lemma MarkersAfterYou(s: string)
    requires NoneIn(s, {'是', '为', '由', '成'})
    ensures AfterMarkers(['由'] + s) == s
  {
    var t := ['由'] + s;
    ContainsChar(t, '是');
    ContainsChar(t, '为');
    ContainsChar(s, '由');
    assert AfterLast(t, "是") == t;
    assert AfterLast(t, "为") == t;
    assert OccursAt(t, "由", 0) && t[1..] == s;
    assert LastPiece(t, "由") == LastPiece(s, "由") == s;
    assert AfterEach(t, TailSeparators) == AfterEach(t, TailSeparators[1..]);
    assert AfterEach(t, TailSeparators[1..]) == AfterEach(t, TailSeparators[2..]);
    assert AfterEach(t, TailSeparators[2..]) == AfterEach(s, []);
    AbsentHead(s, "成员");
  }

  /** The role words all end in 者, 唱 or 手. */
  lemma NoRoleSuffix(s: string)
    requires s != [] && s[|s| - 1] !in {'者', '唱', '手'}
    ensures forall k | 0 <= k < |RoleSuffixes| :: !EndsWith(s, RoleSuffixes[k])
  {
    LastCharDiffers(s, "演唱者");
    LastCharDiffers(s, "演唱");
    LastCharDiffers(s, "主唱");
    LastCharDiffers(s, "歌手");
  }

  lemma ExamplePrepared()
    ensures Prepared("由方文山") == "由方文山"
  {
    PreparedPlain("由方文山");
  }

  lemma ExampleMarkers()
    ensures AfterMarkers("由方文山") == "方文山"
  {
    assert "由方文山" == ['由'] + "方文山";
    MarkersAfterYou("方文山");
  }

  lemma ExampleTrimmed()
    ensures Trimmed("方文山") == "方文山"
  {
    NoRoleSuffix("方文山");
    TrimmedPlain("方文山");
  }

  /** The answer "由方文山" cleans to "方文山". */
  lemma CleanTailExample()
    ensures CleanTail("由方文山") == "方文山"
  {
    ExamplePrepared();
    ExampleMarkers();
    ExampleTrimmed();
  }

  /** Deleting a leading character of `cs` from a string with no other. */
  lemma RemoveLeading(c: char, rest: string, cs: set<char>)
    requires c in cs && NoneIn(rest, cs)
    ensures RemoveChars([c] + rest, cs) == rest
  {
    assert ([c] + rest)[1..] == rest;
  }

  /** Stripping one leading character of `cs` from a string whose ends are outside `cs`. */
  lemma StripLeading(c: char, rest: string, cs: set<char>)
    requires c in cs && rest != [] && rest[0] !in cs && rest[|rest| - 1] !in cs
    ensures StripChars([c] + rest, cs) == rest
  {
    assert ([c] + rest)[1..] == rest;
    assert LStrip([c] + rest, cs) == rest;
  }

  /** A name that every cleaning step leaves alone. */
  predicate PlainName(n: string)
  {
    && n != []
    && NoneIn(n, AngleQuotes) && NoneIn(n, AsciiAlnum) && NoneIn(n, {'是', '为', '由', '成'})
    && n[|n| - 1] !in Whitespace && n[|n| - 1] !in {'者', '唱', '手'}
  }

  lemma NormalizeLetterSpaceDe(c: char, n: string)
    requires c in AsciiAlnum && PlainName(n)
    ensures NormalizeEntity([c, ' ', '的'] + n) == [c, ' ', '的'] + n
  {
    var t := [c, ' ', '的'] + n;
    assert t[0] == c && t[|t| - 1] == n[|n| - 1];
    NormalizePlain(t);
  }

  lemma RemoveLetterBeforeSpace(c: char, n: string)
    requires c in AsciiAlnum && PlainName(n)
    ensures RemoveChars([c, ' ', '的'] + n, AsciiAlnum) == [' ', '的'] + n
  {
    var rest := [' ', '的'] + n;
    assert [c, ' ', '的'] + n == [c] + rest;
    RemoveLeading(c, rest, AsciiAlnum);
  }

  /** The first steps delete a leading letter, and leave the space after it. */
  lemma PreparedLeavesSpace(c: char, n: string)
    requires c in AsciiAlnum && PlainName(n)
    ensures Prepared([c, ' ', '的'] + n) == [' ', '的'] + n
  {
    NormalizeLetterSpaceDe(c, n);
    RemoveLetterBeforeSpace(c, n);
  }

  lemma MarkersSpaceDe(n: string)
    requires PlainName(n)
    ensures AfterMarkers([' ', '的'] + n) == [' ', '的'] + n
  {
    var s := [' ', '的'] + n;
    assert NoneIn(s, {'是', '为', '由', '成'});
    MarkersPlain(s);
  }

  lemma StripSpaceBeforeDe(n: string)
    requires PlainName(n)
    ensures Strip([' ', '的'] + n) == ['的'] + n
  {
    var r := ['的'] + n;
    assert r[0] == '的' && r[|r| - 1] == n[|n| - 1];
    StripLeading(' ', r, Whitespace);
    assert [' '] + r == [' ', '的'] + n;
  }

  lemma CutNothingAfterSpaceDe(n: string)
    requires PlainName(n)
    ensures CutEach([' ', '的'] + n, RoleSuffixes) == [' ', '的'] + n
  {
    var s := [' ', '的'] + n;
    assert s[|s| - 1] == n[|n| - 1];
    NoRoleSuffix(s);
    CutEachPlain(s, RoleSuffixes);
  }

  /** The 的 strip sees the space first, so the 的 survives the final strip. */
  lemma TrimmedKeepsDe(n: string)
    requires PlainName(n)
    ensures Trimmed([' ', '的'] + n) == ['的'] + n
  {
    StripSpaceBeforeDe(n);
    CutNothingAfterSpaceDe(n);
    var s := [' ', '的'] + n;
    assert s[0] == ' ';
    assert LStrip(s, {'的'}) == s;
  }

  /**
   * 的 is stripped only at the very start, before the whitespace is: when a
   * deleted letter leaves a space in front of 的, the 的 stays in the name.
   */
  lemma CleanTailKeepsDe(c: char, n: string)
    requires c in AsciiAlnum && PlainName(n)
    ensures CleanTail([c, ' ', '的'] + n) == ['的'] + n
  {
    PreparedLeavesSpace(c, n);
    MarkersSpaceDe(n);
    TrimmedKeepsDe(n);
  }

  /** "a 的张" cleans to "的张". */
  lemma CleanTailKeepsLeadingDe()
    ensures CleanTail("a 的张") == "的张"
  {
    assert "a 的张" == ['a', ' ', '的'] + "张";
    CleanTailKeepsDe('a', "张");
  }

  /** The `for sep in [...]` loop of `_clean_tail_candidate`. */
  method SeparatorLoop(s: string, seps: seq<string>) returns (r: string)
    requires forall k | 0 <= k < |seps| :: seps[k] != []
    ensures r == AfterEach(s, seps)
  {
    r := s;
    for i := 0 to |seps|
      invariant AfterEach(r, seps[i..]) == AfterEach(s, seps)
    {
      var sep := seps[i];
      assert seps[i..][1..] == seps[i + 1..];
      if Contains(r, sep) {
        r := LastPiece(r, sep);
      }
    }
  }

  /** The `for suffix in [...]` loop of `_clean_tail_candidate`. */
  method SuffixLoop(s: string, suffixes: seq<string>) returns (r: string)
    ensures r == CutEach(s, suffixes)
  {
    r := s;
    for i := 0 to |suffixes|
      invariant CutEach(r, suffixes[i..]) == CutEach(s, suffixes)
    {
      var suffix := suffixes[i];
      assert suffixes[i..][1..] == suffixes[i + 1..];
      if EndsWith(r, suffix) {
        r := r[..|r| - |suffix|];
      }
    }
  }

  /** `_clean_tail_candidate` as written: two loops over constant lists. */
  method CleanTailCandidate(tail: string) returns (cleaned: string)
    ensures cleaned == CleanTail(tail)
  {
    if tail == "" {
      return "";
    }
    cleaned := NormalizeEntity(tail);
    cleaned := RemoveChars(cleaned, AsciiAlnum);
    ghost var prepared := cleaned;
    assert prepared == Prepared(tail);
    cleaned := SeparatorLoop(cleaned, TailSeparators);
    if Contains(cleaned, "成员") {
      cleaned := LastPiece(cleaned, "成员");
    }
    ghost var marked := cleaned;
    assert marked == AfterMarkers(prepared);
    cleaned := LStrip(cleaned, {'的'});
    cleaned := SuffixLoop(cleaned, RoleSuffixes);
    cleaned := Strip(cleaned);
    assert cleaned == Trimmed(marked);
  }

  // ---------------------------------------------------------------------------
  // `_is_valid_tail`

  /** Words that disqualify an ungrounded tail. */
  const TailDenylist: seq<string> :=
    ["不知道", "不确定", "可能", "需要", "答案", "用户", "歌曲", "专辑", "演唱",
     "韩国", "中国", "日本", "美国", "男子", "女子", "组合", "成员"]

  /** No word of `words` occurs in `s`. */
  predicate ContainsNone(s: string, words: seq<string>)
  {
    forall k | 0 <= k < |words| :: !Contains(s, words[k])
  }

  /**
   * `_is_valid_tail`: without ungrounded names only knowledge-graph persons
   * pass; with them, a known person passes and otherwise a name of 2 to 20
   * characters with no ASCII letter or digit and no denylisted word.
   */
  function IsValidTail(tail: string, ex: MusicEntityExtractor, allowUngrounded: bool): bool
  {
    if tail == "" then false
    else if !allowUngrounded then tail in ex.persons
    else if tail in ex.persons then true
    else if |tail| < 2 || |tail| > 20 then false
    else if !NoneIn(tail, AsciiAlnum) then false
    else ContainsNone(tail, TailDenylist)
  }

  /** Grounded mode accepts exactly the non-empty knowledge-graph persons. */
  lemma GroundedTails(tail: string, ex: MusicEntityExtractor)
    ensures IsValidTail(tail, ex, false) <==> tail != "" && tail in ex.persons
  {
  }

  /**
   * Ungrounded mode accepts every grounded tail, never the empty tail, and
   * besides the non-empty known persons exactly the tails that are 2 to 20
   * characters long, have no ASCII letter or digit and contain no denylisted
   * word.
   */
  lemma UngroundedTails(tail: string, ex: MusicEntityExtractor)
    ensures IsValidTail(tail, ex, false) ==> IsValidTail(tail, ex, true)
    ensures IsValidTail(tail, ex, true) && tail !in ex.persons ==>
      2 <= |tail| <= 20 && NoneIn(tail, AsciiAlnum) && ContainsNone(tail, TailDenylist)
    ensures !IsValidTail("", ex, true)
    ensures IsValidTail(tail, ex, true) <==>
      tail != "" && (tail in ex.persons || (2 <= |tail| <= 20 && NoneIn(tail, AsciiAlnum) && ContainsNone(tail, TailDenylist)))
  {
  }

  // ---------------------------------------------------------------------------
  // `_extract_ungrounded_person_candidates`

  /** The class `[一-鿿]`: the CJK Unified Ideographs block. */
  predicate IsCjk(c: char)
  {
    '一' <= c <= '鿿'
  }

  /** Length of the run of CJK characters starting at `i`, capped at `cap`. */
  function CjkRun(text: string, i: nat, cap: nat): (n: nat)
    requires i <= |text|
    ensures n <= cap && i + n <= |text|
    ensures forall k | i <= k < i + n :: IsCjk(text[k])
    ensures n < cap && i + n < |text| ==> !IsCjk(text[i + n])
    decreases cap
  {
    if cap == 0 || i == |text| || !IsCjk(text[i]) then 0 else 1 + CjkRun(text, i + 1, cap - 1)
  }

  /**
   * The matches of `re.finditer(r"[一-鿿]{2,6}", text)` from `from` on:
   * at each position the longest run of up to six CJK characters, if it has at
   * least two; otherwise the scan moves one character on.
   */
  function CjkChunks(text: string, from: nat): (chunks: seq<string>)
    requires from <= |text|
    decreases |text| - from
  {
    if from == |text| then []
    else
      var n := CjkRun(text, from, 6);
      if n >= 2 then [text[from..from + n]] + CjkChunks(text, from + n)
      else CjkChunks(text, from + 1)
  }

  /** Two to six CJK characters. */
  predicate CjkChunk(c: string)
  {
    2 <= |c| <= 6 && forall j | 0 <= j < |c| :: IsCjk(c[j])
  }

  /** Every chunk is two to six CJK characters. */
  lemma {:induction false} CjkChunksShape(text: string, from: nat)
    requires from <= |text|
    ensures forall k | 0 <= k < |CjkChunks(text, from)| :: CjkChunk(CjkChunks(text, from)[k])
    decreases |text| - from
  {
    if from < |text| {
      var n := CjkRun(text, from, 6);
      if n >= 2 {
        CjkChunksShape(text, from + n);
        var first := text[from..from + n];
        assert CjkChunk(first);
        assert CjkChunks(text, from) == [first] + CjkChunks(text, from + n);
      } else {
        CjkChunksShape(text, from + 1);
      }
    }
  }

  /** A cleaned chunk that is kept: not a song or album name, and a valid ungrounded tail. */
  predicate Admitted(c: string, ex: MusicEntityExtractor)
  {
    c !in ex.songs && c !in ex.albums && IsValidTail(c, ex, true)
  }

  /** Each chunk passed through the tail cleaner. */
  function CleanedAll(chunks: seq<string>): (r: seq<string>)
    ensures |r| == |chunks|
    ensures forall k | 0 <= k < |chunks| :: r[k] == CleanTail(chunks[k])
  {
    if chunks == [] then [] else [CleanTail(chunks[0])] + CleanedAll(chunks[1..])
  }

  /** The admitted cleaned chunks, first occurrence kept. */
  function Candidates(cleaned: seq<string>, ex: MusicEntityExtractor): seq<string>
  {
    if cleaned == [] then []
    else
      var prev := Candidates(cleaned[..|cleaned| - 1], ex);
      var c := cleaned[|cleaned| - 1];
      if Admitted(c, ex) && c !in prev then prev + [c] else prev
  }

  /**
   * The candidate list has no repeats, and holds exactly the cleaned chunks
   * that are admitted.
   */
  lemma {:induction false} CandidatesMeaning(cleaned: seq<string>, ex: MusicEntityExtractor)
    ensures Distinct(Candidates(cleaned, ex))
    ensures forall x :: x in Candidates(cleaned, ex) <==> Admitted(x, ex) && x in cleaned
  {
    if cleaned != [] {
      var init := cleaned[..|cleaned| - 1];
      CandidatesMeaning(init, ex);
      assert cleaned == init + [cleaned[|cleaned| - 1]];
    }
  }

  /**
   * The candidates come in the order of their first occurrences among the
   * cleaned chunks.
   */
  lemma {:induction false} CandidatesOrder(cleaned: seq<string>, ex: MusicEntityExtractor)
    ensures forall x | x in Candidates(cleaned, ex) :: x in cleaned
    ensures forall i, j | 0 <= i < j < |Candidates(cleaned, ex)| ::
      FirstIndex(cleaned, Candidates(cleaned, ex)[i]) < FirstIndex(cleaned, Candidates(cleaned, ex)[j])
  {
    CandidatesMeaning(cleaned, ex);
    if cleaned != [] {
      var init := cleaned[..|cleaned| - 1];
      var c := cleaned[|cleaned| - 1];
      CandidatesOrder(init, ex);
      CandidatesMeaning(init, ex);
      var prev := Candidates(init, ex);
      var cands := Candidates(cleaned, ex);
      assert cleaned == init + [c];
      forall x | x in init ensures FirstIndex(cleaned, x) == FirstIndex(init, x) {
        FirstIndexPrefix(cleaned, |init|, x);
      }
      if cands != prev {
        assert cands == prev + [c] && c !in init;
        assert FirstIndex(cleaned, c) == |init|;
      }
    }
  }

  /** The spec of `_extract_ungrounded_person_candidates`. */
  function UngroundedOf(text: string, ex: MusicEntityExtractor): seq<string>
  {
    Candidates(CleanedAll(CjkChunks(text, 0)), ex)
  }

  /** One step of the candidate fold. */
  lemma CandidatesStep(cleaned: seq<string>, i: nat, ex: MusicEntityExtractor)
    requires i < |cleaned|
    ensures Candidates(cleaned[..i + 1], ex) ==
      if Admitted(cleaned[i], ex) && cleaned[i] !in Candidates(cleaned[..i], ex)
      then Candidates(cleaned[..i], ex) + [cleaned[i]]
      else Candidates(cleaned[..i], ex)
  {
    assert cleaned[..i + 1][..i] == cleaned[..i];
  }

  /** The loop body's call of `_clean_tail_candidate` on the `i`-th chunk. */
  method CleanChunk(chunks: seq<string>, i: nat, ghost cleaned: seq<string>) returns (candidate: string)
    requires i < |chunks| && cleaned == CleanedAll(chunks)
    ensures |cleaned| == |chunks| && candidate == cleaned[i]
  {
    candidate := CleanTailCandidate(chunks[i]);
  }

  /** `_extract_ungrounded_person_candidates` as written: one pass over the chunks. */
  method UngroundedCandidates(text: string, ex: MusicEntityExtractor) returns (candidates: seq<string>)
    ensures candidates == UngroundedOf(text, ex)
  {
    var chunks := CjkChunks(text, 0);
    ghost var cleaned := CleanedAll(chunks);
    candidates := [];
    for i := 0 to |chunks|
      invariant candidates == Candidates(cleaned[..i], ex)
    {
      var candidate := CleanChunk(chunks, i, cleaned);
      CandidatesStep(cleaned, i, ex);
      if candidate in ex.songs || candidate in ex.albums {
        continue;
      }
      if IsValidTail(candidate, ex, true) {
        if candidate !in candidates {
          candidates := candidates + [candidate];
        }
      }
    }
    assert cleaned[..|chunks|] == cleaned;
  }
}
