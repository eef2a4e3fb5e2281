/**
 * `_lightweight_extraction`, the second stage: for a short answer to a
 * question about one known song, build the single triple
 * (song, asked relation, person) either from the whole answer or from the
 * first of a list of phrase templates that yields a valid name.
 */
module Lightweight {
  import opened Wrappers
  import opened PyText
  import opened Pattern
  import opened Dictionary
  import opened Tails
  import opened Relations

  /** Words that mark an answer as not being a bare name. */
  const Hedges: seq<string> := ["不知道", "不确定", "可能", "需要", "嗯", "好的", "用户"]

  /** `[。！？\n]`: the answer is cut at the first of these. */
  const SentenceEnds: set<char> := {'。', '！', '？', '\n'}

  /** `[。！？，,.\s】）\)\]]`: characters removed from the end of a name. */
  const TrailingJunk: set<char> := {'。', '！', '？', '，', ',', '.', '】', '）', ')', ']'} + Whitespace

  /** `[（\(【\s]`: a captured name is cut at the first of these. */
  const NameBreaks: set<char> := {'（', '(', '【'} + Whitespace

  /** `[^\s。，；！？、,，]`: the characters a captured name may not contain. */
  const GroupStop: set<char> := Whitespace + {'。', '，', '；', '！', '？', '、', ','}

  /** `REL_VARIANTS.get(rel, [rel])`: the ways the answer may name the relation. */
  function RelVariants(rel: string): (vs: seq<string>)
    ensures rel in AllowedRelations ==> rel in vs
    ensures rel !in AllowedRelations ==> vs == [rel]
  {
    if rel == "作词" then ["作词", "作词人", "词作者", "填词人", "填词"]
    else if rel == "作曲" then ["作曲", "作曲人", "曲作者", "谱曲人", "谱曲"]
    else if rel == "歌手" then ["歌手", "演唱者", "主唱", "演唱"]
    else [rel]
  }

  /** `strip()`, delete `*`, keep the text before the first sentence end, `strip()`. */
  function CleanAnswer(text: string): string
  {
    Strip(PrefixBefore(RemoveChars(Strip(text), {'*'}), SentenceEnds))
  }

  /** `re.sub(r'[。！？，,.\s】）\)\]]+$', '', s).strip()`. */
  function TrimTail(s: string): string
  {
    Strip(RStrip(s, TrailingJunk))
  }

  /** The answer as a candidate name: trimmed, then cleaned when ungrounded names are allowed. */
  function DirectTail(cleanAns: string, allowUngrounded: bool): string
  {
    var t := TrimTail(cleanAns);
    if allowUngrounded then CleanTail(t) else t
  }

  /** The test for taking the whole answer as the name. */
  predicate LooksDirect(t: string, song: string, variants: seq<string>)
  {
    |t| <= 20 && ContainsNone(t, Hedges) && !Contains(t, song) && ContainsNone(t, variants)
  }

  /** `《?{song}》?\s*的\s*{v}(?:是|为)?\s*([^\s。，；！？、,，]+)`. */
  function SongTemplate(song: string, v: string): Template
  {
    Template([Opt({'《'}), Lit(song), Opt({'》'}), Star(Whitespace), Lit("的"), Star(Whitespace),
              Lit(v), Opt({'是', '为'}), Star(Whitespace)], GroupStop)
  }

  /** `{v}(?:是|为)?\s*([^\s。，；！？、,，]+)`. */
  function BareTemplate(v: string): Template
  {
    Template([Lit(v), Opt({'是', '为'}), Star(Whitespace)], GroupStop)
  }

  /** `答案[：:]\s*([^\s。，；！？、,，]+)`. */
  const AnswerTemplate: Template := Template([Lit("答案"), One({'：', ':'}), Star(Whitespace)], GroupStop)

  /** Per variant a `first` then a `second` template, in variant order, and `last` at the end. */
  function Interleaved(variants: seq<string>, first: string -> Template, second: string -> Template, last: Template): seq<Template>
  {
    if variants == [] then [last]
    else [first(variants[0]), second(variants[0])] + Interleaved(variants[1..], first, second, last)
  }

  /** The `patterns` list: per variant its song template then its bare template, and the answer template last. */
  function Templates(song: string, variants: seq<string>): seq<Template>
  {
    Interleaved(variants, v => SongTemplate(song, v), BareTemplate, AnswerTemplate)
  }

  lemma {:induction false} InterleavedOrder(variants: seq<string>, first: string -> Template, second: string -> Template, last: Template)
    ensures |Interleaved(variants, first, second, last)| == 2 * |variants| + 1
    ensures forall k | 0 <= k < |variants| ::
      Interleaved(variants, first, second, last)[2 * k] == first(variants[k])
      && Interleaved(variants, first, second, last)[2 * k + 1] == second(variants[k])
    ensures Interleaved(variants, first, second, last)[2 * |variants|] == last
  {
    if variants != [] {
      InterleavedOrder(variants[1..], first, second, last);
      var rest := Interleaved(variants[1..], first, second, last);
      var all := Interleaved(variants, first, second, last);
      assert all == [first(variants[0]), second(variants[0])] + rest;
      forall k | 1 <= k < |variants|
        ensures all[2 * k] == first(variants[k])
        ensures all[2 * k + 1] == second(variants[k])
      {
        assert all[2 * k] == rest[2 * (k - 1)];
        assert all[2 * k + 1] == rest[2 * (k - 1) + 1];
        assert variants[1..][k - 1] == variants[k];
      }
    }
  }

  /** The templates come interleaved, two per variant in variant order, with the answer template last. */
  lemma TemplatesOrder(song: string, variants: seq<string>)
    ensures |Templates(song, variants)| == 2 * |variants| + 1
    ensures forall k | 0 <= k < |variants| ::
      Templates(song, variants)[2 * k] == SongTemplate(song, variants[k])
      && Templates(song, variants)[2 * k + 1] == BareTemplate(variants[k])
    ensures Templates(song, variants)[2 * |variants|] == AnswerTemplate
  {
    InterleavedOrder(variants, v => SongTemplate(song, v), BareTemplate, AnswerTemplate);
  }

  /** The literal words of the templates: the song, 的 and the variant; the bare variant. */
  lemma TemplateLits(song: string, v: string)
    ensures Lits(SongTemplate(song, v).atoms) == [song, "的", v]
    ensures Lits(BareTemplate(v).atoms) == [v]
  {
    ShapeLits(song, v, {'《'}, {'》'}, Whitespace, {'是', '为'});
    BareShapeLits(v, {'是', '为'}, Whitespace);
  }

  /** `TemplateLits` over any character classes, so that the literal classes stay folded. */
  lemma ShapeLits(song: string, v: string, open: set<char>, close: set<char>, ws: set<char>, copula: set<char>)
    ensures Lits([Opt(open), Lit(song), Opt(close), Star(ws), Lit("的"), Star(ws), Lit(v), Opt(copula), Star(ws)]) == [song, "的", v]
  {
    var a6 := [Lit(v), Opt(copula), Star(ws)];
    BareShapeLits(v, copula, ws);
    var a5 := [Star(ws)] + a6;
    LitsCons(Star(ws), a6);
    var a4 := [Lit("的")] + a5;
    LitsCons(Lit("的"), a5);
    var a3 := [Star(ws)] + a4;
    LitsCons(Star(ws), a4);
    var a2 := [Opt(close)] + a3;
    LitsCons(Opt(close), a3);
    var a1 := [Lit(song)] + a2;
    LitsCons(Lit(song), a2);
    var a0 := [Opt(open)] + a1;
    LitsCons(Opt(open), a1);
    assert a0 == [Opt(open), Lit(song), Opt(close), Star(ws), Lit("的"), Star(ws), Lit(v), Opt(copula), Star(ws)];
  }

  lemma BareShapeLits(v: string, copula: set<char>, ws: set<char>)
    ensures Lits([Lit(v), Opt(copula), Star(ws)]) == [v]
  {
    var a8: seq<Atom> := [Star(ws)];
    LitsCons(Star(ws), []);
    assert a8 == [Star(ws)] + [];
    var a7 := [Opt(copula)] + a8;
    LitsCons(Opt(copula), a8);
    LitsCons(Lit(v), a7);
    assert [Lit(v)] + a7 == [Lit(v), Opt(copula), Star(ws)];
  }

  /**
   * A successful search of a song template captures the run that follows a
   * match, at the leftmost position where the template matches, in which the
   * song, 的 and the variant occur in that order.
   */
  lemma SongTemplateSearch(song: string, v: string, s: string)
    ensures Search(SongTemplate(song, v), s).Some? ==> exists p: nat, j: nat | p <= j <= |s| ::
      && NowhereBefore(SongTemplate(song, v), s, p)
      && InOrder([song, "的", v], s, p, j)
      && Search(SongTemplate(song, v), s).value == s[j..j + RunOut(s, j, GroupStop)]
  {
    SearchLits(SongTemplate(song, v), s);
    TemplateLits(song, v);
  }

  /** A captured group turned into a name: strip, cut at a bracket or space, trim, clean when ungrounded. */
  function GroupTail(g: string, allowUngrounded: bool): string
  {
    var t := Strip(PrefixBefore(Strip(g), NameBreaks));
    var trimmed := TrimTail(t);
    if allowUngrounded then CleanTail(trimmed) else trimmed
  }

  /** The name the first template yields whose search succeeds and whose name passes the tail test. */
  function FirstTemplateTail(templates: seq<Template>, cleanAns: string, ex: MusicEntityExtractor, allowUngrounded: bool): (r: Option<string>)
  {
    if templates == [] then None
    else match Search(templates[0], cleanAns)
      case Some(g) =>
        var tail := GroupTail(g, allowUngrounded);
        if IsValidTail(tail, ex, allowUngrounded) then Some(tail)
        else FirstTemplateTail(templates[1..], cleanAns, ex, allowUngrounded)
      case None => FirstTemplateTail(templates[1..], cleanAns, ex, allowUngrounded)
  }

  /** A name the templates yield passes the tail test and comes from some template's match. */
  lemma {:induction false} FirstTemplateTailFound(templates: seq<Template>, cleanAns: string, ex: MusicEntityExtractor, allowUngrounded: bool)
    ensures FirstTemplateTail(templates, cleanAns, ex, allowUngrounded).Some? ==>
      && IsValidTail(FirstTemplateTail(templates, cleanAns, ex, allowUngrounded).value, ex, allowUngrounded)
      && exists k | 0 <= k < |templates| :: Search(templates[k], cleanAns).Some?
           && GroupTail(Search(templates[k], cleanAns).value, allowUngrounded) == FirstTemplateTail(templates, cleanAns, ex, allowUngrounded).value
    ensures (forall k | 0 <= k < |templates| :: Search(templates[k], cleanAns).None?) ==>
      FirstTemplateTail(templates, cleanAns, ex, allowUngrounded).None?
  {
    if templates != [] {
      FirstTemplateTailFound(templates[1..], cleanAns, ex, allowUngrounded);
      var r := FirstTemplateTail(templates, cleanAns, ex, allowUngrounded);
      if r.Some? && r != FirstTemplateTail(templates[1..], cleanAns, ex, allowUngrounded) {
        assert Search(templates[0], cleanAns).Some?;
      } else if r.Some? {
        var k :| 0 <= k < |templates[1..]| && Search(templates[1..][k], cleanAns).Some?
          && GroupTail(Search(templates[1..][k], cleanAns).value, allowUngrounded) == r.value;
        assert templates[1..][k] == templates[k + 1];
      }
      if forall k | 0 <= k < |templates| :: Search(templates[k], cleanAns).None? {
        assert Search(templates[0], cleanAns).None?;
        forall k | 0 <= k < |templates[1..]| ensures Search(templates[1..][k], cleanAns).None? {
          assert templates[1..][k] == templates[k + 1];
        }
      }
    }
  }

  /** The whole answer as the name, when it looks like a bare name and passes the tail test. */
  function DirectPick(cleanAns: string, rel: string, song: string, ex: MusicEntityExtractor, allowUngrounded: bool): (r: Option<string>)
    ensures r.Some? ==> IsValidTail(r.value, ex, allowUngrounded)
  {
    var direct := DirectTail(cleanAns, allowUngrounded);
    if LooksDirect(direct, song, RelVariants(rel)) && IsValidTail(direct, ex, allowUngrounded) then Some(direct)
    else None
  }

  /**
   * `_lightweight_extraction` over the asked relation `rel` and the head
   * `song` that the question helpers return.
   */
  function LightweightTriples(text: string, rel: string, song: string, ex: MusicEntityExtractor, allowUngrounded: bool): seq<Triple>
  {
    if rel == "" then []
    else if song == "" || song !in ex.songs then []
    else
      var cleanAns := CleanAnswer(text);
      match DirectPick(cleanAns, rel, song, ex, allowUngrounded)
      case Some(direct) => [Triple(song, rel, direct)]
      case None =>
        match FirstTemplateTail(Templates(song, RelVariants(rel)), cleanAns, ex, allowUngrounded)
        case Some(tail) => [Triple(song, rel, tail)]
        case None => []
  }

  /**
   * The stage yields at most one triple; its head is the question's song, a
   * known song; its relation is the asked one; its tail passes the tail test.
   */
  lemma LightweightShape(text: string, rel: string, song: string, ex: MusicEntityExtractor, allowUngrounded: bool)
    ensures |LightweightTriples(text, rel, song, ex, allowUngrounded)| <= 1
    ensures LightweightTriples(text, rel, song, ex, allowUngrounded) != [] ==>
      && rel != "" && song != "" && song in ex.songs
      && LightweightTriples(text, rel, song, ex, allowUngrounded)[0].head == song
      && LightweightTriples(text, rel, song, ex, allowUngrounded)[0].rel == rel
      && IsValidTail(LightweightTriples(text, rel, song, ex, allowUngrounded)[0].tail, ex, allowUngrounded)
  {
    if rel != "" && song != "" && song in ex.songs {
      var cleanAns := CleanAnswer(text);
      FirstTemplateTailFound(Templates(song, RelVariants(rel)), cleanAns, ex, allowUngrounded);
    }
  }

  /** A name with nothing for the answer clean-up to remove. */
  predicate BareName(name: string)
  {
    && name != []
    && name[0] !in Whitespace && name[|name| - 1] !in TrailingJunk
    && '*' !in name && NoneIn(name, SentenceEnds)
  }

  lemma CleanAnswerBare(name: string)
    requires BareName(name)
    ensures CleanAnswer(name) == name
  {
    assert name[|name| - 1] !in Whitespace;
    assert Strip(name) == name;
    assert NoneIn(name, {'*'});
    assert RemoveChars(name, {'*'}) == name;
    assert PrefixBefore(name, SentenceEnds) == name;
  }

  lemma TrimTailBare(name: string)
    requires BareName(name)
    ensures TrimTail(name) == name
  {
    assert RStrip(name, TrailingJunk) == name;
    assert name[|name| - 1] !in Whitespace;
  }

  /**
   * A known person's bare name, given as the whole answer about a known song,
   * becomes the one triple (song, asked relation, name), whatever the relation.
   */
  lemma BareNameTriple(name: string, rel: string, song: string, ex: MusicEntityExtractor)
    requires rel != "" && song != "" && song in ex.songs && name in ex.persons
    requires BareName(name) && LooksDirect(name, song, RelVariants(rel))
    ensures LightweightTriples(name, rel, song, ex, false) == [Triple(song, rel, name)]
  {
    CleanAnswerBare(name);
    DirectPickBare(name, rel, song, ex);
  }

  lemma DirectPickBare(name: string, rel: string, song: string, ex: MusicEntityExtractor)
    requires name in ex.persons && BareName(name) && LooksDirect(name, song, RelVariants(rel))
    ensures DirectPick(name, rel, song, ex, false) == Some(name)
  {
    TrimTailBare(name);
  }

  lemma LooksDirectExample()
    ensures LooksDirect("方文山", "青花瓷", RelVariants("所属专辑"))
  {
    var t := "方文山";
    assert RelVariants("所属专辑") == ["所属专辑"];
    AbsentHead(t, "不知道");
    AbsentHead(t, "不确定");
    AbsentHead(t, "可能");
    AbsentHead(t, "需要");
    AbsentHead(t, "嗯");
    AbsentHead(t, "好的");
    AbsentHead(t, "用户");
    AbsentHead(t, "青花瓷");
    AbsentHead(t, "所属专辑");
  }

  lemma BareExample()
    ensures BareName("方文山")
  {
    var t := "方文山";
    assert t[0] !in Whitespace;
    assert t[2] !in TrailingJunk;
    assert NoneIn(t, SentenceEnds);
  }

  /** The answer "方文山" to an album question about 青花瓷 yields (青花瓷, 所属专辑, 方文山). */
  lemma RelationPassThrough(ex: MusicEntityExtractor)
    requires "方文山" in ex.persons && "青花瓷" in ex.songs
    ensures LightweightTriples("方文山", "所属专辑", "青花瓷", ex, false) == [Triple("青花瓷", "所属专辑", "方文山")]
  {
    LooksDirectExample();
    BareExample();
    BareNameTriple("方文山", "所属专辑", "青花瓷", ex);
  }

  /** The `for pattern in patterns` loop: the first template match whose name passes the tail test. */
  method SearchTemplates(templates: seq<Template>, cleanAns: string, ex: MusicEntityExtractor, allowUngrounded: bool)
    returns (found: Option<string>)
    ensures found == FirstTemplateTail(templates, cleanAns, ex, allowUngrounded)
  {
    for i := 0 to |templates|
      invariant FirstTemplateTail(templates, cleanAns, ex, allowUngrounded) == FirstTemplateTail(templates[i..], cleanAns, ex, allowUngrounded)
    {
      assert templates[i..][1..] == templates[i + 1..];
      var m := Search(templates[i], cleanAns);
      if m.Some? {
        var tail := GroupTail(m.value, allowUngrounded);
        if IsValidTail(tail, ex, allowUngrounded) {
          return Some(tail);
        }
      }
    }
    return None;
  }

  /** `_lightweight_extraction`, with the question helpers as function parameters. */
  method LightweightExtraction(text: string, question: string, relationOf: string -> string, headOf: string -> string,
                               ex: MusicEntityExtractor, allowUngrounded: bool)
    returns (triples: seq<Triple>)
    ensures triples == LightweightTriples(text, relationOf(question), headOf(question), ex, allowUngrounded)
  {
    var rel := relationOf(question);
    if rel == "" {
      return [];
    }
    var song := headOf(question);
    if song == "" || song !in ex.songs {
      return [];
    }
    var cleanAns := CleanAnswer(text);
    var direct := DirectPick(cleanAns, rel, song, ex, allowUngrounded);
    if direct.Some? {
      return [Triple(song, rel, direct.value)];
    }
    var found := SearchTemplates(Templates(song, RelVariants(rel)), cleanAns, ex, allowUngrounded);
    if found.Some? {
      triples := [Triple(song, rel, found.value)];
    } else {
      triples := [];
    }
  }
}
