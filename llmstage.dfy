/**
 * The first stage of `extract_triples_from_llm_answer`: the language model is
 * asked to emit a JSON list of triples, and each item of that list is
 * normalised and validated against the dictionary.
 */
module LlmStage {
  import opened Wrappers
  import opened PyText
  import opened Dictionary
  import opened Tails
  import opened Relations
  import opened Services

  /** The extraction prompt up to the answer text. */
  const PromptHead: string :=
    "你是一个专业的信息抽取系统。请从以下文本中：\n"
    + "1. 识别【歌曲】和【人物】实体；\n"
    + "2. 判断它们之间的关系，关系类型只能是：歌手、作词、作曲；\n"
    + "3. 输出严格为 JSON 列表，格式：[{\"head\":\"歌曲\",\"relation\":\"关系\",\"tail\":\"人物\"}]\n"
    + "\n"
    + "示例：\n"
    + "文本：《青花瓷》由周杰伦演唱，方文山作词。\n"
    + "输出：\n"
    + "[{\"head\": \"青花瓷\", \"relation\": \"歌手\", \"tail\": \"周杰伦\"}, {\"head\": \"青花瓷\", \"relation\": \"作词\", \"tail\": \"方文山\"}]\n"
    + "\n"
    + "文本："

  /** The extraction prompt after the answer text. */
  const PromptTail: string := "\n输出：\n"

  /** The f-string `extraction_prompt`. */
  function ExtractionPrompt(answer: string): string
  {
    PromptHead + answer + PromptTail
  }

  /** The prompt determines the answer it was built from: the answer is the text between the fixed head and tail. */
  lemma PromptCarriesAnswer(answer: string)
    ensures |ExtractionPrompt(answer)| == |PromptHead| + |answer| + |PromptTail|
    ensures ExtractionPrompt(answer)[|PromptHead|..|PromptHead| + |answer|] == answer
  {
    var p := ExtractionPrompt(answer);
    assert p == PromptHead + (answer + PromptTail);
    assert p[|PromptHead|..] == answer + PromptTail;
    assert (answer + PromptTail)[..|answer|] == answer;
  }

  lemma PromptInjective(a: string, b: string)
    requires ExtractionPrompt(a) == ExtractionPrompt(b)
    ensures a == b
  {
    PromptCarriesAnswer(a);
    PromptCarriesAnswer(b);
  }

  // ---------------------------------------------------------------------------
  // `re.search(r'(\[.*\])', raw_output, re.DOTALL)`

  /** The first index of `c` in `s`. */
  function FirstOf(s: string, c: char): (r: Option<nat>)
    ensures r.Some? ==> r.value < |s| && s[r.value] == c && c !in s[..r.value]
    ensures r.None? ==> c !in s
  {
    if s == [] then None
    else if s[0] == c then Some(0)
    else match FirstOf(s[1..], c)
      case None => None
      case Some(i) =>
        assert s[..i + 1] == [s[0]] + s[1..][..i];
        Some(i + 1)
  }

  /** The last index of `c` in `s`. */
  function LastOf(s: string, c: char): (r: Option<nat>)
    ensures r.Some? ==> r.value < |s| && s[r.value] == c && c !in s[r.value + 1..]
    ensures r.None? ==> c !in s
  {
    if s == [] then None
    else if s[|s| - 1] == c then Some(|s| - 1)
    else
      match LastOf(s[..|s| - 1], c)
      case None =>
        assert s == s[..|s| - 1] + [s[|s| - 1]];
        None
      case Some(i) =>
        assert s[i + 1..] == s[..|s| - 1][i + 1..] + [s[|s| - 1]];
        Some(i)
  }

  /**
   * The span the greedy, dot-matches-all search captures: from the first `[`
   * to the last `]`, when the first `[` comes before the last `]`.
   */
  function BracketSpan(s: string): (r: Option<(nat, nat)>)
    ensures r.Some? ==>
      && r.value.0 < r.value.1 < |s|
      && s[r.value.0] == '[' && s[r.value.1] == ']'
      && '[' !in s[..r.value.0] && ']' !in s[r.value.1 + 1..]
    ensures r.None? ==> forall i, j | 0 <= i < j < |s| :: !(s[i] == '[' && s[j] == ']')
  {
    match (FirstOf(s, '['), LastOf(s, ']'))
    case (Some(i), Some(j)) =>
      if i < j then Some((i, j))
      else
        NoBracketPair(s, i, j);
        None
    case (_, _) => None
  }

  lemma NoBracketPair(s: string, i: nat, j: nat)
    requires i < |s| && s[i] == '[' && '[' !in s[..i]
    requires j < |s| && s[j] == ']' && ']' !in s[j + 1..]
    requires j <= i
    ensures forall a, b | 0 <= a < b < |s| :: !(s[a] == '[' && s[b] == ']')
  {
    forall a | 0 <= a < i ensures s[a] != '[' {
      assert s[..i][a] == s[a];
    }
    forall b | j < b < |s| ensures s[b] != ']' {
      assert s[j + 1..][b - j - 1] == s[b];
    }
  }

  // ---------------------------------------------------------------------------
  // The item loop

  /**
   * `_normalize_entity(item.get(key, ""))`; None when that raises (the item
   * is not an object, or the value is a truthy non-string).
   */
  function EntityField(item: Item, key: string): Option<string>
  {
    match item
    case NotObj => None
    case Obj(fields) =>
      if key !in fields then Some("")
      else match fields[key]
        case JStr(s) => Some(NormalizeEntity(s))
        case JOther(truthy) => if truthy then None else Some("")
  }

  /** `item.get("relation", "").strip()`; None when that raises (the value is not a string). */
  function RelationField(item: Item): Option<string>
  {
    match item
    case NotObj => None
    case Obj(fields) =>
      if "relation" !in fields then Some("")
      else match fields["relation"]
        case JStr(s) => Some(Strip(s))
        case JOther(_) => None
  }

  /** What the loop body does with one item: raise, skip it, or append a triple. */
  datatype Verdict = Raised | Dropped | Kept(t: Triple)

  /** The accepted form of the fields read from one item. */
  ghost predicate Acceptable(t: Triple, ex: MusicEntityExtractor, allowUngrounded: bool)
  {
    t.rel in AllowedRelations
    && (allowUngrounded ==> t.head != "" && IsValidTail(t.tail, ex, true))
    && (!allowUngrounded ==> (t.head in ex.songs || t.head in ex.albums) && t.tail in ex.persons)
  }

  function ItemVerdict(item: Item, ex: MusicEntityExtractor, allowUngrounded: bool, forcedHead: string): (v: Verdict)
    ensures v.Kept? ==> Acceptable(v.t, ex, allowUngrounded)
  {
    match (EntityField(item, "head"), RelationField(item), EntityField(item, "tail"))
    case (Some(head0), Some(rel), Some(tail0)) =>
      var tail := if allowUngrounded then CleanTail(tail0) else tail0;
      var head := if allowUngrounded && head0 == "" && forcedHead != "" then forcedHead else head0;
      if rel !in AllowedRelations then Dropped
      else if allowUngrounded then
        if head != "" && IsValidTail(tail, ex, true) then Kept(Triple(head, rel, tail)) else Dropped
      else if (head in ex.songs || head in ex.albums) && tail in ex.persons then Kept(Triple(head, rel, tail))
      else Dropped
    case (_, _, _) => Raised
  }

  /** The triples the loop collects over `items`; None when some item raises. */
  function ItemsTriples(items: seq<Item>, ex: MusicEntityExtractor, allowUngrounded: bool, forcedHead: string): Option<seq<Triple>>
  {
    if items == [] then Some([])
    else
      match ItemsTriples(items[..|items| - 1], ex, allowUngrounded, forcedHead)
      case None => None
      case Some(ts) =>
        match ItemVerdict(items[|items| - 1], ex, allowUngrounded, forcedHead)
        case Raised => None
        case Dropped => Some(ts)
        case Kept(t) => Some(ts + [t])
  }

  /** Every collected triple passed the validation of its item. */
  lemma {:induction false} ItemsTriplesSound(items: seq<Item>, ex: MusicEntityExtractor, allowUngrounded: bool, forcedHead: string)
    ensures ItemsTriples(items, ex, allowUngrounded, forcedHead).Some? ==>
      forall k | 0 <= k < |ItemsTriples(items, ex, allowUngrounded, forcedHead).value| ::
        Acceptable(ItemsTriples(items, ex, allowUngrounded, forcedHead).value[k], ex, allowUngrounded)
    ensures ItemsTriples(items, ex, allowUngrounded, forcedHead).Some? ==>
      |ItemsTriples(items, ex, allowUngrounded, forcedHead).value| <= |items|
  {
    if items != [] {
      ItemsTriplesSound(items[..|items| - 1], ex, allowUngrounded, forcedHead);
    }
  }

  /** Once an item raises, the whole loop raises, whatever follows. */
  lemma {:induction false} RaisedStays(items: seq<Item>, n: nat, ex: MusicEntityExtractor, allowUngrounded: bool, forcedHead: string)
    requires n <= |items|
    requires ItemsTriples(items[..n], ex, allowUngrounded, forcedHead).None?
    ensures ItemsTriples(items, ex, allowUngrounded, forcedHead).None?
    decreases |items| - n
  {
    if n < |items| {
      assert items[..n + 1][..n] == items[..n];
      RaisedStays(items, n + 1, ex, allowUngrounded, forcedHead);
    } else {
      assert items[..n] == items;
    }
  }

  /** An item that raises anywhere in the list makes the loop raise. */
  lemma AnyRaiseRaises(items: seq<Item>, k: nat, ex: MusicEntityExtractor, allowUngrounded: bool, forcedHead: string)
    requires k < |items| && ItemVerdict(items[k], ex, allowUngrounded, forcedHead).Raised?
    ensures ItemsTriples(items, ex, allowUngrounded, forcedHead).None?
  {
    assert items[..k + 1][..k] == items[..k];
    assert items[..k + 1][k] == items[k];
    RaisedStays(items, k + 1, ex, allowUngrounded, forcedHead);
  }

  /**
   * The `for item in data` loop; `raised` reports that the loop stopped on an
   * exception, which discards what was collected.
   */
  method CollectItems(items: seq<Item>, ex: MusicEntityExtractor, allowUngrounded: bool, forcedHead: string)
    returns (triples: seq<Triple>, raised: bool)
    ensures raised <==> ItemsTriples(items, ex, allowUngrounded, forcedHead).None?
    ensures !raised ==> triples == ItemsTriples(items, ex, allowUngrounded, forcedHead).value
  {
    triples := [];
    raised := false;
    var i := 0;
    while i < |items|
      invariant i <= |items|
      invariant ItemsTriples(items[..i], ex, allowUngrounded, forcedHead) == Some(triples)
    {
      assert items[..i + 1][..i] == items[..i];
      var verdict := ItemVerdict(items[i], ex, allowUngrounded, forcedHead);
      assert items[..i + 1][i] == items[i];
      if verdict.Raised? {
        RaisedStays(items, i + 1, ex, allowUngrounded, forcedHead);
        raised := true;
        return;
      }
      if verdict.Kept? {
        triples := triples + [verdict.t];
      }
      i := i + 1;
    }
    assert items[..i] == items;
  }

  /** What the first stage yields for the model's reply `raw`: [] unless a list decodes and no item raises. */
  function LlmTriples(raw: string, decode: string -> Option<seq<Item>>, ex: MusicEntityExtractor, allowUngrounded: bool, forcedHead: string): seq<Triple>
  {
    match BracketSpan(raw)
    case None => []
    case Some((i, j)) =>
      match decode(raw[i..j + 1])
      case None => []
      case Some(items) =>
        match ItemsTriples(items, ex, allowUngrounded, forcedHead)
        case None => []
        case Some(ts) => ts
  }

  /**
   * Every triple of the first stage has an allowed relation. Without
   * ungrounded names its head is a known song or album and its tail a known
   * person; with them its head is non-empty and its tail passes the tail test.
   */
  lemma LlmTriplesValid(raw: string, decode: string -> Option<seq<Item>>, ex: MusicEntityExtractor, allowUngrounded: bool, forcedHead: string)
    ensures forall k | 0 <= k < |LlmTriples(raw, decode, ex, allowUngrounded, forcedHead)| ::
      Acceptable(LlmTriples(raw, decode, ex, allowUngrounded, forcedHead)[k], ex, allowUngrounded)
  {
    match BracketSpan(raw)
    case None =>
    case Some((i, j)) =>
      match decode(raw[i..j + 1])
      case None =>
      case Some(items) =>
        ItemsTriplesSound(items, ex, allowUngrounded, forcedHead);
  }

  /** Without a `[` before a `]` in the reply no item is ever looked at. */
  lemma NoBracketsNoTriples(raw: string, decode: string -> Option<seq<Item>>, ex: MusicEntityExtractor, allowUngrounded: bool, forcedHead: string)
    requires '[' !in raw
    ensures LlmTriples(raw, decode, ex, allowUngrounded, forcedHead) == []
  {
  }
}
