/**
 * The relation vocabulary shared by the extraction stages: the triple type,
 * the three relations a triple may carry, and the trigger words the
 * keyword-based stage looks for.
 */
module Relations {
  import opened PyText

  /** A (head, relation, tail) triple, such as ("青花瓷", "作词", "方文山"). */
  datatype Triple = Triple(head: string, rel: string, tail: string)

  /** `ALLOWED_RELATIONS`. */
  const AllowedRelations: set<string> := {"歌手", "作词", "作曲"}

  /**
   * One trigger of `RELATION_KEYWORDS`. Every trigger is searched as escaped
   * literal text except `由.*?演唱`, the only one beginning with 由, which is
   * searched as a regular expression.
   */
  datatype Keyword = Literal(w: string) | YouThenSing

  /** `RELATION_KEYWORDS`, in the order of the dictionary literal. */
  const RelationKeywords: seq<(string, seq<Keyword>)> :=
    [ ("歌手", [Literal("演唱"), Literal("唱"), Literal("主唱"), YouThenSing, Literal("演唱者"), Literal("谁唱")]),
      ("作词", [Literal("作词"), Literal("填词"), Literal("词作者"), Literal("歌词由"), Literal("作词人"), Literal("谁写的词")]),
      ("作曲", [Literal("作曲"), Literal("谱曲"), Literal("曲作者"), Literal("作曲人"), Literal("谁作曲")]) ]

  /** `re.search("由.*?演唱", text)` succeeds: a 由, then 演唱 later on the same line. */
  predicate YouThenSingAt(text: string, i: nat, j: nat)
  {
    i < j <= |text| && text[i] == '由' && OccursAt(text, "演唱", j) && '\n' !in text[i + 1..j]
  }

  predicate YouThenSingIn(text: string)
  {
    exists i: nat, j: nat | i < j <= |text| :: YouThenSingAt(text, i, j)
  }

  /**
   * The search for one trigger. Case-insensitive matching changes nothing
   * here, since every trigger is made of CJK characters.
   */
  predicate KeywordFound(kw: Keyword, text: string)
  {
    match kw
    case Literal(w) => Contains(text, w)
    case YouThenSing => YouThenSingIn(text)
  }

  /** Some trigger of `kws` is found in `text`. */
  predicate AnyKeyword(kws: seq<Keyword>, text: string)
  {
    exists k | 0 <= k < |kws| :: KeywordFound(kws[k], text)
  }

  /** Every relation that has triggers is an allowed relation. */
  lemma KeywordRelationsAllowed()
    ensures forall k | 0 <= k < |RelationKeywords| :: RelationKeywords[k].0 in AllowedRelations
  {
  }

  /** The literal trigger 唱 makes the 由…演唱 pattern redundant for the singer relation: whenever it matches, 唱 occurs. */
  lemma YouThenSingHasSing(text: string)
    requires YouThenSingIn(text)
    ensures Contains(text, "唱")
  {
    var i: nat, j: nat :| i < j <= |text| && YouThenSingAt(text, i, j);
    assert text[j + 1] == "演唱"[1];
    assert OccursAt(text, "唱", j + 1);
  }
}
