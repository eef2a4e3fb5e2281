/**
 * The evaluation script's scoring logic: text normalisation, the keyword
 * test for an answer, the normalised triple sets, and the triple counters
 * of `calculate_metrics` (true positives, false positives, false negatives
 * over the supported relations).
 */
module Evaluate {
  import opened Wrappers
  import opened PyText

  /** The characters `normalize_text` strips from both ends. */
  const Punctuation: set<char> :=
    { ' ', ',', '，', '。', '.', '!', '！', '？', '?', ';', '；', ':', '：', '"', '\'',
      '“', '”', '‘', '’', '（', '）', '(', ')', '[', ']', '【', '】', '《', '》' }

  /** `SUPPORTED_RELS`. */
  const SupportedRels: set<string> := {"歌手", "作词", "作曲"}

  /** `normalize_text`: None becomes ""; otherwise delete all whitespace, then strip the punctuation. */
  function NormalizeText(text: Option<string>): string
  {
    match text
    case None => ""
    case Some(s) => StripChars(RemoveChars(s, Whitespace), Punctuation)
  }

  /**
   * None gives ""; otherwise the result is the whitespace-free text with only
   * punctuation cut from its two ends, holds no whitespace, and neither starts
   * nor ends with the punctuation.
   */
  lemma NormalizeTextShape(text: Option<string>)
    ensures text.None? ==> NormalizeText(text) == ""
    ensures text.Some? ==> IsSlice(NormalizeText(text), RemoveChars(text.value, Whitespace))
    ensures text.Some? ==> TrimmedSome(RemoveChars(text.value, Whitespace), Punctuation, NormalizeText(text))
    ensures NoneIn(NormalizeText(text), Whitespace)
    ensures NormalizeText(text) != [] ==> NormalizeText(text)[0] !in Punctuation && NormalizeText(text)[|NormalizeText(text)| - 1] !in Punctuation
  {
    if text.Some? {
      var bare := RemoveChars(text.value, Whitespace);
      assert NormalizeText(text) == StripChars(bare, Punctuation);
      NoneInSlice(NormalizeText(text), bare, Whitespace);
    }
  }

  /** A string `normalize_text` leaves unchanged. */
  predicate Normalized(s: string)
  {
    NormalizeText(Some(s)) == s
  }

  /** Normalising twice is normalising once. */
  lemma NormalizeIdempotent(text: Option<string>)
    ensures Normalized(NormalizeText(text))
  {
    var r := NormalizeText(text);
    NormalizeTextShape(text);
    assert RemoveChars(r, Whitespace) == r;
  }

  // ---------------------------------------------------------------------------
  // answer_contains_any

  /** Each keyword normalised. */
  function NormalizeAll(keywords: seq<string>): (r: seq<string>)
    ensures |r| == |keywords|
    ensures forall k | 0 <= k < |keywords| :: r[k] == NormalizeText(Some(keywords[k]))
  {
    if keywords == [] then [] else [NormalizeText(Some(keywords[0]))] + NormalizeAll(keywords[1..])
  }

  /** The `any(...)` over the normalised keywords: one of them occurs in the normalised answer. */
  function SomeOccurs(normalizedAnswer: string, words: seq<string>): bool
  {
    if words == [] then false
    else Contains(normalizedAnswer, words[0]) || SomeOccurs(normalizedAnswer, words[1..])
  }

  /** `answer_contains_any`. */
  function AnswerContainsAny(answer: Option<string>, keywords: seq<string>): bool
  {
    if keywords == [] then false
    else SomeOccurs(NormalizeText(answer), NormalizeAll(keywords))
  }

  lemma {:induction false} SomeOccursMeaning(normalizedAnswer: string, words: seq<string>)
    ensures SomeOccurs(normalizedAnswer, words) <==> exists k | 0 <= k < |words| :: Contains(normalizedAnswer, words[k])
  {
    if words != [] {
      SomeOccursMeaning(normalizedAnswer, words[1..]);
      if exists k | 0 <= k < |words| :: Contains(normalizedAnswer, words[k]) {
        var k :| 0 <= k < |words| && Contains(normalizedAnswer, words[k]);
        if k > 0 {
          assert words[1..][k - 1] == words[k];
        }
      } else {
        forall k | 0 <= k < |words[1..]| ensures !Contains(normalizedAnswer, words[1..][k]) {
          assert words[1..][k] == words[k + 1];
        }
      }
    }
  }

  /**
   * No keywords, no match; otherwise the answer matches exactly when the
   * normalised form of some keyword occurs in the normalised answer.
   */
  lemma AnswerContainsAnyMeaning(answer: Option<string>, keywords: seq<string>)
    ensures keywords == [] ==> !AnswerContainsAny(answer, keywords)
    ensures AnswerContainsAny(answer, keywords) <==>
      exists k | 0 <= k < |keywords| :: Contains(NormalizeText(answer), NormalizeText(Some(keywords[k])))
  {
    var words := NormalizeAll(keywords);
    SomeOccursMeaning(NormalizeText(answer), words);
    assert forall k | 0 <= k < |keywords| :: words[k] == NormalizeText(Some(keywords[k]));
  }

  // ---------------------------------------------------------------------------
  // normalize_triples

  /** A normalised triple. */
  type NTriple = (string, string, string)

  /** Each component normalised. */
  function NormalizeTriple(t: seq<string>): NTriple
    requires |t| == 3
  {
    (NormalizeText(Some(t[0])), NormalizeText(Some(t[1])), NormalizeText(Some(t[2])))
  }

  /** The normalised triple of a length-3 tuple; None for a tuple `normalize_triples` skips. */
  function TripleOf(t: seq<string>): (r: Option<NTriple>)
    ensures r.Some? <==> |t| == 3
    ensures r.Some? ==> r.value == NormalizeTriple(t)
  {
    if |t| == 3 then Some(NormalizeTriple(t)) else None
  }

  /** The set of the defined images of `ts` under `f`, built front to back. */
  function Collected(ts: seq<seq<string>>, f: seq<string> -> Option<NTriple>): set<NTriple>
  {
    if ts == [] then {}
    else
      var rest := Collected(ts[..|ts| - 1], f);
      match f(ts[|ts| - 1])
      case Some(x) => rest + {x}
      case None => rest
  }

  /** The set `normalize_triples` builds from the tuples `ts`, skipping those whose length is not 3. */
  function NormalizedSet(ts: seq<seq<string>>): set<NTriple>
  {
    Collected(ts, TripleOf)
  }

  lemma {:induction false} CollectedMembers(ts: seq<seq<string>>, f: seq<string> -> Option<NTriple>)
    ensures forall x :: x in Collected(ts, f) <==> exists k | 0 <= k < |ts| :: f(ts[k]) == Some(x)
  {
    if ts != [] {
      var init := ts[..|ts| - 1];
      CollectedMembers(init, f);
      forall x ensures x in Collected(ts, f) <==> exists k | 0 <= k < |ts| :: f(ts[k]) == Some(x) {
        if x in Collected(init, f) {
          var k :| 0 <= k < |init| && f(init[k]) == Some(x);
          assert ts[k] == init[k];
        }
        if exists k | 0 <= k < |ts| :: f(ts[k]) == Some(x) {
          var k :| 0 <= k < |ts| && f(ts[k]) == Some(x);
          if k < |init| {
            assert init[k] == ts[k];
          }
        }
      }
    }
  }

  /** The set holds exactly the normalised forms of the length-3 tuples. */
  lemma NormalizedSetMembers(ts: seq<seq<string>>)
    ensures forall x :: x in NormalizedSet(ts) <==> exists k | 0 <= k < |ts| :: |ts[k]| == 3 && NormalizeTriple(ts[k]) == x
  {
    CollectedMembers(ts, TripleOf);
  }

  lemma {:induction false} CollectedSize(ts: seq<seq<string>>, f: seq<string> -> Option<NTriple>)
    ensures |Collected(ts, f)| <= |ts|
  {
    if ts != [] {
      CollectedSize(ts[..|ts| - 1], f);
    }
  }

  /** The set is no larger than the input. */
  lemma NormalizedSetSize(ts: seq<seq<string>>)
    ensures |NormalizedSet(ts)| <= |ts|
  {
    CollectedSize(ts, TripleOf);
  }

  /** Every component of every element is already normalised. */
  lemma NormalizedSetNormal(ts: seq<seq<string>>)
    ensures forall x | x in NormalizedSet(ts) :: Normalized(x.0) && Normalized(x.1) && Normalized(x.2)
  {
    NormalizedSetMembers(ts);
    forall x | x in NormalizedSet(ts) ensures Normalized(x.0) && Normalized(x.1) && Normalized(x.2) {
      var k :| 0 <= k < |ts| && |ts[k]| == 3 && NormalizeTriple(ts[k]) == x;
      NormalizeIdempotent(Some(ts[k][0]));
      NormalizeIdempotent(Some(ts[k][1]));
      NormalizeIdempotent(Some(ts[k][2]));
    }
  }

  /** `normalize_triples`. */
  method NormalizeTriples(ts: seq<seq<string>>) returns (normalized: set<NTriple>)
    ensures normalized == NormalizedSet(ts)
  {
    normalized := {};
    for i := 0 to |ts|
      invariant normalized == NormalizedSet(ts[..i])
    {
      assert ts[..i + 1][..i] == ts[..i];
      var triple := ts[i];
      if |triple| != 3 {
        continue;
      }
      var (head, rel, tail) := (triple[0], triple[1], triple[2]);
      normalized := normalized + {(NormalizeText(Some(head)), NormalizeText(Some(rel)), NormalizeText(Some(tail)))};
    }
    assert ts[..|ts|] == ts;
  }

  // ---------------------------------------------------------------------------
  // calculate_metrics

  /** The fields of one evaluated case that the counters read. */
  datatype Case = Case(
    finalAnswer: Option<string>,
    keywords: seq<string>,
    extracted: seq<seq<string>>,
    expected: seq<seq<string>>)

  /** The counters `calculate_metrics` keeps for accuracy and for the triple scores. */
  datatype Counts = Counts(correctCount: nat, correctTotal: nat, tp: nat, fp: nat, fn: nat, tripleCases: nat)

  /** `t[1]` is defined for every expected tuple; otherwise the comprehension raises. */
  predicate ExpectedReadable(c: Case)
  {
    forall k | 0 <= k < |c.expected| :: |c.expected[k]| >= 2
  }

  /** `[t for t in expected_triples if t[1] in SUPPORTED_RELS]`. */
  function SupportedOnly(ts: seq<seq<string>>): (r: seq<seq<string>>)
    requires forall k | 0 <= k < |ts| :: |ts[k]| >= 2
    ensures |r| <= |ts|
  {
    if ts == [] then []
    else if ts[0][1] in SupportedRels then [ts[0]] + SupportedOnly(ts[1..])
    else SupportedOnly(ts[1..])
  }

  /** The filter keeps exactly the tuples whose relation is supported. */
  lemma {:induction false} SupportedOnlyMembers(ts: seq<seq<string>>)
    requires forall k | 0 <= k < |ts| :: |ts[k]| >= 2
    ensures forall t :: t in SupportedOnly(ts) <==> t in ts && t[1] in SupportedRels
  {
    if ts != [] {
      SupportedOnlyMembers(ts[1..]);
      assert forall t :: t in ts <==> t == ts[0] || t in ts[1..];
    }
  }

  /** The normalised extracted set of a case. */
  function ExtractedSet(c: Case): set<NTriple>
  {
    NormalizedSet(c.extracted)
  }

  /** The normalised expected set of a case, over the supported relations only. */
  function ExpectedSet(c: Case): set<NTriple>
    requires ExpectedReadable(c)
  {
    NormalizedSet(SupportedOnly(c.expected))
  }

  /** The counter updates for one case, from what the case contributes. */
  function Bump(acc: Counts, hasKeywords: bool, correct: bool, ext: set<NTriple>, exp: set<NTriple>): Counts
  {
    Counts(
      acc.correctCount + (if hasKeywords && correct then 1 else 0),
      acc.correctTotal + (if hasKeywords then 1 else 0),
      acc.tp + (if exp != {} then |ext * exp| else 0),
      acc.fp + (if exp != {} then |ext - exp| else 0),
      acc.fn + (if exp != {} then |exp - ext| else 0),
      acc.tripleCases + (if exp != {} then 1 else 0))
  }

  /** The counters after one more case. */
  function AddCase(acc: Counts, c: Case): Counts
    requires ExpectedReadable(c)
  {
    Bump(acc, c.keywords != [], AnswerContainsAny(c.finalAnswer, c.keywords), ExtractedSet(c), ExpectedSet(c))
  }

  /** Every case's expected tuples can be filtered. */
  predicate AllReadable(cases: seq<Case>)
  {
    forall k | 0 <= k < |cases| :: ExpectedReadable(cases[k])
  }

  /** The counters over `cases`, case by case. */
  function Tally(cases: seq<Case>): Counts
    requires AllReadable(cases)
  {
    if cases == [] then Counts(0, 0, 0, 0, 0, 0)
    else AddCase(Tally(cases[..|cases| - 1]), cases[|cases| - 1])
  }

  /** The counters of `calculate_metrics`; None when some case's expected tuples make the filter raise. */
  function Metrics(cases: seq<Case>): Option<Counts>
  {
    if AllReadable(cases) then Some(Tally(cases)) else None
  }

  /** A set split by another: the common part and the rest add up to the whole. */
  lemma SplitCount(a: set<NTriple>, b: set<NTriple>)
    ensures |a * b| + |a - b| == |a|
  {
    assert a == (a * b) + (a - b);
    assert (a * b) * (a - b) == {};
  }

  /** The summed sizes of the extracted and expected sets over the cases with supported expected triples. */
  function Scored(cases: seq<Case>): (r: (nat, nat))
    requires AllReadable(cases)
  {
    if cases == [] then (0, 0)
    else
      var rest := Scored(cases[..|cases| - 1]);
      var c := cases[|cases| - 1];
      if ExpectedSet(c) == {} then rest
      else (rest.0 + |ExtractedSet(c)|, rest.1 + |ExpectedSet(c)|)
  }

  /**
   * When defined, tp + fp is the number of extracted and tp + fn the number of
   * expected triples, summed over the cases with supported expected triples;
   * accuracy counts at most the cases that have keywords.
   */
  lemma {:induction false} MetricsBalance(cases: seq<Case>)
    requires AllReadable(cases)
    ensures Tally(cases).tp + Tally(cases).fp == Scored(cases).0
    ensures Tally(cases).tp + Tally(cases).fn == Scored(cases).1
    ensures Tally(cases).correctCount <= Tally(cases).correctTotal <= |cases|
    ensures Tally(cases).tripleCases <= |cases|
  {
    if cases != [] {
      var init := cases[..|cases| - 1];
      var c := cases[|cases| - 1];
      assert forall k | 0 <= k < |init| :: init[k] == cases[k];
      MetricsBalance(init);
      SplitCount(ExtractedSet(c), ExpectedSet(c));
      SplitCount(ExpectedSet(c), ExtractedSet(c));
      assert ExpectedSet(c) * ExtractedSet(c) == ExtractedSet(c) * ExpectedSet(c);
    }
  }

  /** A case with no supported expected triples leaves the triple counters as they were. */
  lemma UnsupportedCaseAddsNothing(acc: Counts, c: Case)
    requires ExpectedReadable(c)
    requires forall k | 0 <= k < |c.expected| :: c.expected[k][1] !in SupportedRels
    ensures AddCase(acc, c).tp == acc.tp && AddCase(acc, c).fp == acc.fp
    ensures AddCase(acc, c).fn == acc.fn && AddCase(acc, c).tripleCases == acc.tripleCases
  {
    var r := SupportedOnly(c.expected);
    SupportedOnlyMembers(c.expected);
    assert forall k | 0 <= k < |r| :: r[k] in r;
  }

  /** The counter updates of the loop body. */
  method BumpCounters(acc: Counts, hasKeywords: bool, isCorrect: bool, extractedTriples: set<NTriple>, expectedTriples: set<NTriple>)
    returns (next: Counts)
    ensures next == Bump(acc, hasKeywords, isCorrect, extractedTriples, expectedTriples)
  {
    var correctCount, correctTotal := acc.correctCount, acc.correctTotal;
    var tpTriples, fpTriples, fnTriples, tripleCases := acc.tp, acc.fp, acc.fn, acc.tripleCases;
    if hasKeywords {
      correctTotal := correctTotal + 1;
      if isCorrect {
        correctCount := correctCount + 1;
      }
    }
    if expectedTriples != {} {
      tripleCases := tripleCases + 1;
      tpTriples := tpTriples + |extractedTriples * expectedTriples|;
      fpTriples := fpTriples + |extractedTriples - expectedTriples|;
      fnTriples := fnTriples + |expectedTriples - extractedTriples|;
    }
    next := Counts(correctCount, correctTotal, tpTriples, fpTriples, fnTriples, tripleCases);
  }

  /** The body of the `for res in results` loop, for a case whose expected tuples all have a relation component. */
  method ScoreCase(acc: Counts, res: Case) returns (next: Counts)
    requires ExpectedReadable(res)
    ensures next == AddCase(acc, res)
  {
    var extractedTriples := NormalizeTriples(res.extracted);
    var isCorrect := AnswerContainsAny(res.finalAnswer, res.keywords);
    var expectedTriples := NormalizeTriples(SupportedOnly(res.expected));
    next := BumpCounters(acc, res.keywords != [], isCorrect, extractedTriples, expectedTriples);
  }

  /** One more readable case extends the tally by that case. */
  lemma TallyStep(cases: seq<Case>, i: nat)
    requires i < |cases| && AllReadable(cases[..i]) && ExpectedReadable(cases[i])
    ensures AllReadable(cases[..i + 1])
    ensures Tally(cases[..i + 1]) == AddCase(Tally(cases[..i]), cases[i])
  {
    assert cases[..i + 1][..i] == cases[..i];
    assert cases[..i + 1][i] == cases[i];
  }

  /** The counting loop of `calculate_metrics`; `failed` reports that a case made the filter raise. */
  method CalculateMetrics(cases: seq<Case>) returns (counts: Counts, failed: bool)
    ensures failed <==> Metrics(cases).None?
    ensures !failed ==> counts == Metrics(cases).value
  {
    counts := Counts(0, 0, 0, 0, 0, 0);
    failed := false;
    for i := 0 to |cases|
      invariant AllReadable(cases[..i])
      invariant counts == Tally(cases[..i])
    {
      if !ExpectedReadable(cases[i]) {
        failed := true;
        return;
      }
      TallyStep(cases, i);
      counts := ScoreCase(counts, cases[i]);
    }
    assert cases[..|cases|] == cases;
  }
}
