/**
 * `extract_triples_from_llm_answer`: turn a free-text answer into triples by
 * trying three stages in turn (the model's own JSON, the short-answer
 * templates, the keyword fallback) and returning the first non-empty result.
 */
module Extraction {
  import opened Wrappers
  import opened PyText
  import opened Dictionary
  import opened Tails
  import opened Relations
  import opened Services
  import opened LlmStage
  import opened Lightweight
  import opened Fallback

  /** Answers nothing is extracted from: empty, or 未知 / unknown / blank once stripped and lower-cased. */
  predicate NoAnswer(answer: string)
  {
    answer == "" || Lower(Strip(answer)) in {"未知", "unknown", ""}
  }

  /** The head that replaces an empty LLM head: the question's head entity, asked for only in ungrounded mode. */
  function ForcedHead(question: string, headOf: string -> string, allowUngrounded: bool): string
  {
    if allowUngrounded && question != "" then headOf(question) else ""
  }

  /** The first stage on `answer`: prompt the model, then read the triples out of its reply. */
  function FirstStage(answer: string, question: string, svc: Services, ex: MusicEntityExtractor, allowUngrounded: bool): seq<Triple>
  {
    LlmTriples(svc.generate(ExtractionPrompt(answer)), svc.decode, ex, allowUngrounded,
               ForcedHead(question, svc.headOf, allowUngrounded))
  }

  /** The second stage on `answer`, with the relation and head the question helpers find in `question`. */
  function SecondStage(answer: string, question: string, svc: Services, ex: MusicEntityExtractor, allowUngrounded: bool): seq<Triple>
  {
    LightweightTriples(answer, svc.relationOf(question), svc.headOf(question), ex, allowUngrounded)
  }

  /** `extract_triples_from_llm_answer`. */
  function ExtractedTriples(answer: string, question: string, svc: Services, ex: MusicEntityExtractor, allowUngrounded: bool): seq<Triple>
  {
    if NoAnswer(answer) then []
    else if FirstStage(answer, question, svc, ex, allowUngrounded) != [] then FirstStage(answer, question, svc, ex, allowUngrounded)
    else if SecondStage(answer, question, svc, ex, allowUngrounded) != [] then SecondStage(answer, question, svc, ex, allowUngrounded)
    else FallbackTriples(answer, ex, allowUngrounded)
  }

  // ---------------------------------------------------------------------------
  // Properties

  /** A missing, blank or "unknown" answer yields nothing, whatever the model and the dictionary. */
  lemma NoAnswerNoTriples(answer: string, question: string, svc: Services, ex: MusicEntityExtractor, allowUngrounded: bool)
    ensures answer == "" ==> ExtractedTriples(answer, question, svc, ex, allowUngrounded) == []
    ensures Lower(Strip(answer)) == "" ==> ExtractedTriples(answer, question, svc, ex, allowUngrounded) == []
    ensures Lower(Strip(answer)) == "unknown" ==> ExtractedTriples(answer, question, svc, ex, allowUngrounded) == []
    ensures Lower(Strip(answer)) == "未知" ==> ExtractedTriples(answer, question, svc, ex, allowUngrounded) == []
  {
  }

  /** An answer of spaces only is blank, so it yields nothing either. */
  lemma BlankAnswerNoTriples(question: string, svc: Services, ex: MusicEntityExtractor, allowUngrounded: bool)
    ensures ExtractedTriples("   ", question, svc, ex, allowUngrounded) == []
  {
    var l := LStrip("   ", Whitespace);
    assert ' ' in Whitespace;
    assert l == [];
    NoAnswerNoTriples("   ", question, svc, ex, allowUngrounded);
  }

  /**
   * The stages take priority in order: the first stage's triples whenever it
   * yields any, the second's only when the first yields none, the fallback's
   * only when both yield none.
   */
  lemma StagesInOrder(answer: string, question: string, svc: Services, ex: MusicEntityExtractor, allowUngrounded: bool)
    requires !NoAnswer(answer)
    ensures FirstStage(answer, question, svc, ex, allowUngrounded) != [] ==>
      ExtractedTriples(answer, question, svc, ex, allowUngrounded) == FirstStage(answer, question, svc, ex, allowUngrounded)
    ensures FirstStage(answer, question, svc, ex, allowUngrounded) == [] && SecondStage(answer, question, svc, ex, allowUngrounded) != [] ==>
      ExtractedTriples(answer, question, svc, ex, allowUngrounded) == SecondStage(answer, question, svc, ex, allowUngrounded)
    ensures FirstStage(answer, question, svc, ex, allowUngrounded) == [] && SecondStage(answer, question, svc, ex, allowUngrounded) == [] ==>
      ExtractedTriples(answer, question, svc, ex, allowUngrounded) == FallbackTriples(answer, ex, allowUngrounded)
  {
  }

  /** What every extracted triple satisfies, in terms of the question's asked relation and the mode. */
  ghost predicate Extracted(t: Triple, askedRel: string, ex: MusicEntityExtractor, allowUngrounded: bool)
  {
    (t.rel in AllowedRelations || t.rel == askedRel)
    && (!allowUngrounded ==> (t.head in ex.songs || t.head in ex.albums) && t.tail in ex.persons)
    && (allowUngrounded ==> t.tail in ex.persons || IsValidTail(t.tail, ex, true))
  }

  /** The first stage's triples satisfy the extraction bound. */
  lemma FirstStageSound(answer: string, question: string, svc: Services, ex: MusicEntityExtractor, allowUngrounded: bool)
    ensures forall k | 0 <= k < |FirstStage(answer, question, svc, ex, allowUngrounded)| ::
      Extracted(FirstStage(answer, question, svc, ex, allowUngrounded)[k], svc.relationOf(question), ex, allowUngrounded)
  {
    var first := FirstStage(answer, question, svc, ex, allowUngrounded);
    LlmTriplesValid(svc.generate(ExtractionPrompt(answer)), svc.decode, ex, allowUngrounded,
                    ForcedHead(question, svc.headOf, allowUngrounded));
    forall k | 0 <= k < |first| ensures Extracted(first[k], svc.relationOf(question), ex, allowUngrounded) {
      assert Acceptable(first[k], ex, allowUngrounded);
    }
  }

  /** The second stage's triples satisfy the extraction bound. */
  lemma SecondStageSound(answer: string, question: string, svc: Services, ex: MusicEntityExtractor, allowUngrounded: bool)
    ensures forall k | 0 <= k < |SecondStage(answer, question, svc, ex, allowUngrounded)| ::
      Extracted(SecondStage(answer, question, svc, ex, allowUngrounded)[k], svc.relationOf(question), ex, allowUngrounded)
  {
    var rel, song := svc.relationOf(question), svc.headOf(question);
    var second := LightweightTriples(answer, rel, song, ex, allowUngrounded);
    LightweightShape(answer, rel, song, ex, allowUngrounded);
    SingleTriple(second, rel, ex, allowUngrounded);
  }

  /** A list of at most one triple with the asked relation and a tail that passes the tail test satisfies the extraction bound. */
  lemma SingleTriple(ts: seq<Triple>, rel: string, ex: MusicEntityExtractor, allowUngrounded: bool)
    requires |ts| <= 1
    requires ts != [] ==> (ts[0].head in ex.songs && ts[0].rel == rel && IsValidTail(ts[0].tail, ex, allowUngrounded))
    ensures forall k | 0 <= k < |ts| :: Extracted(ts[k], rel, ex, allowUngrounded)
  {
    if ts != [] {
      GroundedTails(ts[0].tail, ex);
    }
  }

  /** The fallback's triples satisfy the extraction bound, whatever relation is asked for. */
  lemma FallbackStageSound(answer: string, askedRel: string, ex: MusicEntityExtractor, allowUngrounded: bool)
    requires ex.Valid()
    ensures forall k | 0 <= k < |FallbackTriples(answer, ex, allowUngrounded)| ::
      Extracted(FallbackTriples(answer, ex, allowUngrounded)[k], askedRel, ex, allowUngrounded)
  {
    var third := FallbackTriples(answer, ex, allowUngrounded);
    FallbackSound(answer, ex, allowUngrounded);
    forall k | 0 <= k < |third| ensures Extracted(third[k], askedRel, ex, allowUngrounded) {
      assert FallbackTriple(third[k], answer, ex, allowUngrounded);
    }
  }

  /**
   * Every extracted triple carries an allowed relation or the relation the
   * question asks for. Without ungrounded names its head is a known song or
   * album and its tail a known person; with them its tail is a known person
   * or passes the tail test.
   */
  lemma ExtractedSound(answer: string, question: string, svc: Services, ex: MusicEntityExtractor, allowUngrounded: bool)
    requires ex.Valid()
    ensures forall k | 0 <= k < |ExtractedTriples(answer, question, svc, ex, allowUngrounded)| ::
      Extracted(ExtractedTriples(answer, question, svc, ex, allowUngrounded)[k], svc.relationOf(question), ex, allowUngrounded)
  {
    FirstStageSound(answer, question, svc, ex, allowUngrounded);
    SecondStageSound(answer, question, svc, ex, allowUngrounded);
    FallbackStageSound(answer, svc.relationOf(question), ex, allowUngrounded);
  }

  /** With a question that asks for one of the three relations, every extracted relation is allowed. */
  lemma ExtractedRelationsAllowed(answer: string, question: string, svc: Services, ex: MusicEntityExtractor, allowUngrounded: bool)
    requires ex.Valid()
    requires svc.relationOf(question) in AllowedRelations
    ensures forall k | 0 <= k < |ExtractedTriples(answer, question, svc, ex, allowUngrounded)| ::
      ExtractedTriples(answer, question, svc, ex, allowUngrounded)[k].rel in AllowedRelations
  {
    ExtractedSound(answer, question, svc, ex, allowUngrounded);
    var r := ExtractedTriples(answer, question, svc, ex, allowUngrounded);
    forall k | 0 <= k < |r| ensures r[k].rel in AllowedRelations {
      assert Extracted(r[k], svc.relationOf(question), ex, allowUngrounded);
    }
  }

  // ---------------------------------------------------------------------------
  // The pipeline

  /** The `try` block of the first stage: find the bracketed span, decode it, run the item loop. */
  method RunFirstStage(raw: string, decode: string -> Option<seq<Item>>, ex: MusicEntityExtractor, allowUngrounded: bool, forcedHead: string)
    returns (triples: seq<Triple>)
    ensures triples == LlmTriples(raw, decode, ex, allowUngrounded, forcedHead)
  {
    var span := BracketSpan(raw);
    if span.None? {
      return [];
    }
    var (i, j) := span.value;
    var data := decode(raw[i..j + 1]);
    if data.None? {
      return [];
    }
    var collected, raised := CollectItems(data.value, ex, allowUngrounded, forcedHead);
    if raised {
      return [];
    }
    triples := collected;
  }

  /** `extract_triples_from_llm_answer` as written: the guard, then the three stages in turn. */
  method ExtractTriplesFromAnswer(answer: string, question: string, svc: Services, ex: MusicEntityExtractor, allowUngrounded: bool)
    returns (triples: seq<Triple>)
    ensures triples == ExtractedTriples(answer, question, svc, ex, allowUngrounded)
  {
    if answer == "" || Lower(Strip(answer)) in {"未知", "unknown", ""} {
      return [];
    }
    var forcedHead := "";
    if allowUngrounded && question != "" {
      forcedHead := svc.headOf(question);
    }
    var rawOutput := svc.generate(ExtractionPrompt(answer));
    triples := RunFirstStage(rawOutput, svc.decode, ex, allowUngrounded, forcedHead);
    if triples != [] {
      return;
    }
    var lightTriples := LightweightExtraction(answer, question, svc.relationOf, svc.headOf, ex, allowUngrounded);
    if lightTriples != [] {
      return lightTriples;
    }
    triples := FallbackExtraction(answer, ex, allowUngrounded);
  }
}
