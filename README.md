# Music triple extraction and scoring, modelled in Dafny

This project models the core of a question-answering back end for a music
knowledge graph. The graph holds songs, albums and persons. The core turns a
language model's free-text answer into (head, relation, tail) triples such as
("青花瓷", "作词", "方文山"), so that they can be checked against the graph.

- `back_end/entity_extractor.py` provides:
  - a dictionary recogniser built from the graph's names (longest name first, no overlapping spans);
  - the tail-name cleaner and the tail test;
  - the ungrounded candidate scan;
  - the three extraction stages: the model's own JSON list, the short-answer templates, and the keyword fallback;
  - the orchestrator that returns the first stage with a result.
- `back_end/evaluate.py` provides text normalisation, the keyword test for an answer, normalised triple sets, and the true-positive, false-positive and false-negative counters of `calculate_metrics`.
- `back_end/llm.py` provides the question padding and prompt of `call_llm`, and `parse_llm_answer`.

Modules (one file each):

- `Wrappers` (`Option`).
- `PyText`, the Python string operations the core uses: `strip`, `lstrip`, `split`, `join`, `in`, `lower`, and character-class deletion.
- `Pattern`, a small backtracking matcher for the regular expressions of the template stage. It follows Python's order of alternatives.
- `Relations` (`ALLOWED_RELATIONS`, `RELATION_KEYWORDS`).
- `Dictionary`, the class `MusicEntityExtractor`.
- `Tails`.
- `Services`, the calls the core makes into code outside the model.
- `LlmStage`, `Lightweight`, `Fallback` and `Extraction`.
- `Evaluate` and `LlmAnswer`.

Each imperative source function is a `method` whose `ensures` ties its result to a specification function. The properties the source promises are proved about those functions as lemmas.

Some behaviours of the source that its names and comments do not suggest:

- The template stage tries its patterns interleaved per relation variant: the song pattern of the first variant, then its bare pattern, then the next variant. It does not try all song patterns first (`Lightweight.TemplatesOrder`).
- The tail cleaner strips leading 的 before it strips whitespace. When a deleted ASCII letter leaves a space in front of 的, the 的 stays: "a 的张" cleans to "的张" (`Tails.CleanTailKeepsDe`, `Tails.CleanTailKeepsLeadingDe`). `Tails.CleanTailNoLeadingDe` holds only for inputs without whitespace.
- The template stage emits whatever relation the question helper returns, allowed or not: the answer "方文山" to a 所属专辑 question about 青花瓷 gives (青花瓷, 所属专辑, 方文山) (`Lightweight.RelationPassThrough`). Relations are closed under `ALLOWED_RELATIONS` only when that helper returns one of the three (`Extraction.ExtractedRelationsAllowed`).
- An empty name in the graph is matched at offset 0 and occurs in every text.

## Model

| member | source | states |
|---|---|---|
| PyText.Dedup | back_end/entity_extractor.py:97 | the result has no repeated name, holds exactly the input's names, and leaves an already distinct list as it is |
| PyText.LStrip | back_end/entity_extractor.py:139 | the result is a suffix of the input, made by removing only characters of the set, and does not start with one |
| PyText.StripChars | back_end/evaluate.py:47 | the result is the input with only characters of the set cut from its two ends, neither end of the result is in the set, and an input whose ends are outside the set is unchanged |
| PyText.Strip | back_end/entity_extractor.py:143 | the result is the input with only whitespace cut from its two ends, and neither end of the result is whitespace |
| PyText.RemoveChars | back_end/evaluate.py:46 | the result is no longer than the input, holds no character of the set, is made of the input's characters, and equals an input that had none |
| PyText.RemoveCharsKeeps | back_end/evaluate.py:46 | the result reads off the input in order, and every character outside the set occurs in it exactly as often as in the input |
| PyText.Lower | back_end/entity_extractor.py:216 | the result has the input's length and is the input folded character by character |
| PyText.StripCharsIdempotent | back_end/evaluate.py:47 | stripping a stripped string changes nothing |
| Pattern.MatchAt | back_end/entity_extractor.py:337-339 | a match anchored at an offset captures a non-empty group at or after it, free of stop characters and ending at the text's end or at a stop character (the greedy group) |
| Pattern.TryStar | back_end/entity_extractor.py:337-339 | backtracking over a star yields a group of the same shape as an anchored match |
| Pattern.SearchFrom | back_end/entity_extractor.py:342 | a search from an offset yields a group of that shape at or after the offset |
| Pattern.Search | back_end/entity_extractor.py:342-344 | a successful search yields a non-empty group with no stop character that occurs in the searched text |
| Pattern.MatchAtSound | back_end/entity_extractor.py:337-339 | an anchored match is a way for the atoms to match up to the group's start, and the group is the longest run of allowed characters there |
| Pattern.TryStarSound | back_end/entity_extractor.py:337-339 | a match found after a star lets the rest match from some end point of the star's run |
| Pattern.MatchAtComplete | back_end/entity_extractor.py:337-339 | whenever the atoms can match and a non-empty group can follow, the anchored match succeeds |
| Pattern.TryStarComplete | back_end/entity_extractor.py:337-339 | backtracking over a star misses no end point of the run from which the rest matches |
| Pattern.MatchAtMeaning | back_end/entity_extractor.py:337-339 | the anchored match succeeds exactly when the atoms can match there with a non-empty group after them |
| Pattern.SearchFromLeftmost | back_end/entity_extractor.py:342 | the search returns the anchored match at the leftmost offset where one succeeds, and fails only when none does |
| Pattern.NoMatchNowhere | back_end/entity_extractor.py:342 | offsets where the anchored match fails are offsets where the template does not match |
| Pattern.SearchNone | back_end/entity_extractor.py:342-343 | the search fails exactly when the template matches at no offset of the text |
| Pattern.SearchFound | back_end/entity_extractor.py:342-344 | a successful search returns the group after a match of the atoms at the leftmost offset where the template matches |
| Pattern.LitsCons | back_end/entity_extractor.py:337-339 | the literal words of a pattern are those of its first atom followed by those of the rest |
| Pattern.InOrderFrom | back_end/entity_extractor.py:337-339 | words found in order from an offset are also found in order from any earlier offset |
| Pattern.AtomsMatchLits | back_end/entity_extractor.py:337-339 | wherever the atoms match, their literal words occur there in order without overlapping |
| Pattern.SearchLits | back_end/entity_extractor.py:342-344 | a successful search captures the run right after a leftmost match that holds the pattern's literal words in order |
| Relations.KeywordRelationsAllowed | back_end/entity_extractor.py:114-120 | every relation of the keyword table is an allowed relation |
| Relations.YouThenSingHasSing | back_end/entity_extractor.py:115 | whenever the pattern 由.*?演唱 matches, the plain trigger 唱 also occurs |
| Dictionary.Matches | back_end/entity_extractor.py:85-86 | each reported start is a case-folded occurrence of the name that fits inside the text |
| Dictionary.FindIter | back_end/entity_extractor.py:86 | the `finditer` scan; its meaning is stated by `Dictionary.FindIterSound`, `Dictionary.FindIterApart` and `Dictionary.FindIterFinds` |
| Dictionary.FindIterSound | back_end/entity_extractor.py:86 | every start that `finditer` reports is an occurrence at or after the starting offset |
| Dictionary.FindIterApart | back_end/entity_extractor.py:86 | reported starts increase, and successive starts are at least the name's length apart |
| Dictionary.FindIterFinds | back_end/entity_extractor.py:86 | an occurrence at or after the starting offset means at least one match is reported |
| Dictionary.SortByLength | back_end/entity_extractor.py:76-78 | the result is ordered longest first and is a permutation of the input |
| Dictionary.InsertByLength | back_end/entity_extractor.py:76-78 | inserting into a longest-first list keeps it longest first and adds exactly one copy of the name |
| Dictionary.FirstClear | back_end/entity_extractor.py:87-96 | a chosen span is a match of the name clear of all taken spans; when none is chosen, every match overlaps a taken span |
| Dictionary.ScanSound | back_end/entity_extractor.py:82-96 | every accepted hit is a listed name at one of its matches, clear of earlier categories, and no two hits of a category overlap |
| Dictionary.ScanDistinct | back_end/entity_extractor.py:84-96 | a list of distinct names yields distinct accepted names |
| Dictionary.ScanComplete | back_end/entity_extractor.py:84-96 | a listed name that is not accepted has every match blocked by an accepted or earlier span |
| Dictionary.CategorySound | back_end/entity_extractor.py:84-96 | every hit covers a case-folded occurrence of its name in the text |
| Dictionary.CategoryComplete | back_end/entity_extractor.py:84-96 | a listed name that occurs in the text but is not accepted has matches, and each of them overlaps an accepted span |
| Dictionary.NestedNameRejected | back_end/entity_extractor.py:87-96 | a name tried after an accepted one whose only match lies inside the accepted span is not recognised |
| Dictionary.LongestFirstExample | back_end/entity_extractor.py:76-96 | for a matcher that finds 周杰伦 at 0 and 杰伦 at 1, with 周杰伦 tried before 杰伦, only 周杰伦 is recognised |
| Dictionary.Recognize | back_end/entity_extractor.py:65-98 | the three-category recognition; `Dictionary.NoOverlap`, `Dictionary.CategorySound` and `Dictionary.CategoryComplete` state what it finds |
| Dictionary.NoOverlap | back_end/entity_extractor.py:80-96 | no two spans accepted in one call overlap, within a category or across the three |
| Dictionary.Enumerate | back_end/entity_extractor.py:31-33 | a set is listed once per element, with nothing else |
| Dictionary.MusicEntityExtractor.constructor | back_end/entity_extractor.py:26-63 | a successful load holds exactly the graph's songs, albums and persons; a failed load leaves all three empty |
| Dictionary.MusicEntityExtractor.FirstFreeMatch | back_end/entity_extractor.py:87-96 | the match loop accepts the first match clear of the taken spans, or none |
| Dictionary.MusicEntityExtractor.MatchCategory | back_end/entity_extractor.py:83-96 | the category loop returns the accepted names and grows the taken spans by exactly the accepted spans |
| Dictionary.MusicEntityExtractor.ExtractEntities | back_end/entity_extractor.py:65-98 | the method computes the three-category recognition with the names sorted longest first |
| Dictionary.MusicEntityExtractor.ScanNamesDistinct | back_end/entity_extractor.py:97 | each returned category list has no repeated name |
| Dictionary.MusicEntityExtractor.ScanNamesKnown | back_end/entity_extractor.py:74-98 | each returned name is a graph name of its own category |
| Dictionary.MusicEntityExtractor.ExtractAllEntities | back_end/entity_extractor.py:100-106 | the result lists every name recognised in any category exactly once |
| Tails.NormalizeEntity | back_end/entity_extractor.py:123-126 | the result has no book-title bracket, no surrounding whitespace, and only characters of the input |
| Tails.NormalizeIdempotent | back_end/entity_extractor.py:123-126 | normalising a normalised name changes nothing |
| Tails.AfterLast | back_end/entity_extractor.py:135-136 | the piece after the last separator is a slice of the input that no longer contains the separator |
| Tails.AfterEach | back_end/entity_extractor.py:134-136 | after the separator loop the result is a slice of the input containing none of the separators |
| Tails.CutSuffix | back_end/entity_extractor.py:141-142 | a name ending in the word loses exactly that word; any other name is unchanged |
| Tails.CutEach | back_end/entity_extractor.py:140-142 | the suffix loop leaves a prefix of its input |
| Tails.Prepared | back_end/entity_extractor.py:132-133 | after normalising and deleting ASCII letters and digits, none of either remain and no bracket remains |
| Tails.AfterMarkers | back_end/entity_extractor.py:134-138 | the result is a slice of the input with no 是, 为 or 由 and no 成员 |
| Tails.Trimmed | back_end/entity_extractor.py:139-143 | the last steps leave a slice of their input without surrounding whitespace |
| Tails.CleanTail | back_end/entity_extractor.py:129-143 | `_clean_tail_candidate`; `Tails.CleanTailShape`, `Tails.CleanTailEmpty` and `Tails.CleanTailKeepsDe` state what it leaves |
| Tails.CleanTailShape | back_end/entity_extractor.py:129-143 | a cleaned name has no ASCII letter or digit, no bracket, no 是/为/由, no 成员, and no surrounding whitespace |
| Tails.CleanTailEmpty | back_end/entity_extractor.py:130-131 | the empty candidate cleans to the empty string |
| Tails.CleanTailNoLeadingDe | back_end/entity_extractor.py:139 | a candidate without whitespace never cleans to a name starting with 的 |
| Tails.PreparedPlain | back_end/entity_extractor.py:132-133 | a name without brackets, letters, digits or surrounding whitespace passes the first steps unchanged |
| Tails.NormalizePlain | back_end/entity_extractor.py:123-126 | a name without brackets or surrounding whitespace is its own normal form |
| Tails.MarkersPlain | back_end/entity_extractor.py:134-138 | a name with none of the marker characters passes the marker steps unchanged |
| Tails.TrimmedPlain | back_end/entity_extractor.py:139-143 | a name without leading 的, surrounding whitespace or a role word at its end passes the last steps unchanged |
| Tails.MarkersAfterYou | back_end/entity_extractor.py:134-138 | a marker-free name after one leading 由 is exactly what the marker steps keep |
| Tails.NoRoleSuffix | back_end/entity_extractor.py:140 | a name not ending in 者, 唱 or 手 ends in none of the role words |
| Tails.CleanTailExample | back_end/entity_extractor.py:129-143 | the answer 由方文山 cleans to 方文山 |
| Tails.RemoveLeading | back_end/entity_extractor.py:133 | deleting the characters of a class from a string whose only such character leads it leaves the rest |
| Tails.StripLeading | back_end/entity_extractor.py:143 | stripping a string with one leading strippable character and plain ends leaves the rest |
| Tails.NormalizeLetterSpaceDe | back_end/entity_extractor.py:132 | a letter, a space, 的 and a plain name are their own normal form |
| Tails.RemoveLetterBeforeSpace | back_end/entity_extractor.py:133 | deleting ASCII letters removes the leading letter and keeps the space after it |
| Tails.PreparedLeavesSpace | back_end/entity_extractor.py:132-133 | the first steps turn a letter, a space, 的 and a plain name into the space, 的 and the name |
| Tails.MarkersSpaceDe | back_end/entity_extractor.py:134-138 | the marker steps leave a space, 的 and a plain name alone |
| Tails.StripSpaceBeforeDe | back_end/entity_extractor.py:143 | the final strip removes the space and keeps the 的 |
| Tails.CutNothingAfterSpaceDe | back_end/entity_extractor.py:140-142 | the role-word loop leaves a space, 的 and a plain name alone |
| Tails.TrimmedKeepsDe | back_end/entity_extractor.py:139-143 | the 的 strip sees the space first, so the name keeps its leading 的 |
| Tails.CleanTailKeepsDe | back_end/entity_extractor.py:129-143 | a letter, a space, 的 and a plain name clean to 的 followed by the name |
| Tails.CleanTailKeepsLeadingDe | back_end/entity_extractor.py:129-143 | the candidate "a 的张" cleans to "的张" |
| Tails.SeparatorLoop | back_end/entity_extractor.py:134-136 | the separator loop computes the cut after the last occurrence of each separator in turn |
| Tails.SuffixLoop | back_end/entity_extractor.py:140-142 | the suffix loop cuts each role word in turn when it ends the name |
| Tails.CleanTailCandidate | back_end/entity_extractor.py:129-143 | the method computes the cleaned name step by step |
| Tails.IsValidTail | back_end/entity_extractor.py:146-159 | `_is_valid_tail`; `Tails.GroundedTails` and `Tails.UngroundedTails` state what it accepts |
| Tails.GroundedTails | back_end/entity_extractor.py:146-150 | without ungrounded names a tail is valid exactly when it is a non-empty graph person |
| Tails.UngroundedTails | back_end/entity_extractor.py:146-159 | ungrounded mode accepts every grounded tail and never the empty tail; it accepts a tail exactly when it is non-empty and either a known person or 2 to 20 characters with no ASCII letter or digit and no denylisted word |
| Tails.CjkRun | back_end/entity_extractor.py:164 | the run is capped, lies inside the text, is all CJK, and stops only at the cap, the end or a non-CJK character |
| Tails.CjkChunksShape | back_end/entity_extractor.py:164 | every chunk the scan yields is two to six CJK characters |
| Tails.CleanedAll | back_end/entity_extractor.py:165 | each chunk is replaced by its cleaned form, position by position |
| Tails.CandidatesMeaning | back_end/entity_extractor.py:163-171 | the candidates have no repeats and are exactly the admitted cleaned chunks |
| Tails.CandidatesOrder | back_end/entity_extractor.py:163-171 | the candidates come in the order of their first occurrences among the cleaned chunks |
| Tails.UngroundedOf | back_end/entity_extractor.py:162-171 | `_extract_ungrounded_person_candidates`; `Tails.CandidatesMeaning`, `Tails.CandidatesOrder` and `Tails.CjkChunksShape` state what it returns |
| Tails.CleanChunk | back_end/entity_extractor.py:165 | the loop body's call yields the cleaned form of the current chunk |
| Tails.UngroundedCandidates | back_end/entity_extractor.py:162-171 | the candidate loop returns the admitted cleaned chunks, first occurrence kept |
| Lightweight.RelVariants | back_end/entity_extractor.py:320-325 | an allowed relation is among its own variants; any other relation is its only variant |
| Lightweight.InterleavedOrder | back_end/entity_extractor.py:335-339 | the list has two entries per variant, in variant order, followed by the closing entry |
| Lightweight.TemplatesOrder | back_end/entity_extractor.py:335-339 | the patterns are the song and bare pattern of each variant in order, then the answer-label pattern |
| Lightweight.TemplateLits | back_end/entity_extractor.py:337-338 | the literal words of a song pattern are the song, 的 and the variant; those of a bare pattern are the variant |
| Lightweight.ShapeLits | back_end/entity_extractor.py:337 | the song pattern's literal words, for any character classes |
| Lightweight.BareShapeLits | back_end/entity_extractor.py:338 | the bare pattern's literal word, for any character classes |
| Lightweight.SongTemplateSearch | back_end/entity_extractor.py:337-344 | a successful song-pattern search captures the run right after a leftmost match in which the song, 的 and the variant occur in that order |
| Lightweight.FirstTemplateTailFound | back_end/entity_extractor.py:341-351 | a picked name passes the tail test and is the cleaned group of some successful search; when no search succeeds nothing is picked |
| Lightweight.DirectPick | back_end/entity_extractor.py:327-332 | a name taken directly from the answer passes the tail test |
| Lightweight.CleanAnswer | back_end/entity_extractor.py:311-313 | the answer clean-up; `Lightweight.CleanAnswerBare` states what it leaves alone |
| Lightweight.TrimTail | back_end/entity_extractor.py:316 | the trailing-junk trim; `Lightweight.TrimTailBare` states what it leaves alone |
| Lightweight.CleanAnswerBare | back_end/entity_extractor.py:311-313 | an answer without surrounding whitespace, `*` or a sentence end is its own clean form |
| Lightweight.TrimTailBare | back_end/entity_extractor.py:316 | a name without surrounding whitespace or trailing junk is not trimmed |
| Lightweight.DirectPickBare | back_end/entity_extractor.py:316-332 | a bare grounded known person that looks direct is picked as the whole answer |
| Lightweight.BareNameTriple | back_end/entity_extractor.py:302-332 | a known person's bare name, as the whole answer about a known song, gives the one triple (song, asked relation, name), whatever the relation |
| Lightweight.LooksDirectExample | back_end/entity_extractor.py:327-329 | 方文山 passes the direct test for the song 青花瓷 and the relation 所属专辑 |
| Lightweight.BareExample | back_end/entity_extractor.py:311-316 | 方文山 has nothing for the clean-up to remove |
| Lightweight.RelationPassThrough | back_end/entity_extractor.py:294-332 | the answer 方文山 to a 所属专辑 question about the song 青花瓷 gives (青花瓷, 所属专辑, 方文山) |
| Lightweight.LightweightTriples | back_end/entity_extractor.py:294-352 | `_lightweight_extraction`; `Lightweight.LightweightShape` and `Lightweight.BareNameTriple` state what it yields |
| Lightweight.LightweightShape | back_end/entity_extractor.py:294-352 | the stage yields at most one triple, only for a non-empty relation and a known song, with that song as head, the asked relation, and a valid tail |
| Lightweight.SearchTemplates | back_end/entity_extractor.py:341-351 | the pattern loop returns the first pattern's name that passes the tail test |
| Lightweight.LightweightExtraction | back_end/entity_extractor.py:294-352 | the method computes the stage's triples for the relation and head the helpers find in the question |
| Fallback.PersonsIn | back_end/entity_extractor.py:374 | the result holds exactly the graph persons occurring in the text |
| Fallback.FirstOther | back_end/entity_extractor.py:392-396 | the tail chosen is a candidate other than the song; no tail means every candidate is the song |
| Fallback.RelationTriplesSound | back_end/entity_extractor.py:388-397 | each triple of one song has that song as head, a relation of the table, and a candidate other than the song as tail |
| Fallback.RelationTriplesDistinct | back_end/entity_extractor.py:388-397 | with distinct relation names, one song yields at most one triple per relation |
| Fallback.KeywordTable | back_end/entity_extractor.py:114-120 | the keyword table names each relation once, and each is allowed |
| Fallback.SongsTriplesSound | back_end/entity_extractor.py:387-398 | each triple has a listed song as head, an allowed relation and a candidate tail other than its head; with distinct songs no (song, relation) pair repeats |
| Fallback.FallbackGivesUp | back_end/entity_extractor.py:368-376 | no recognised song, or (grounded) no graph person in the text, gives no triples |
| Fallback.TailCandidatesSound | back_end/entity_extractor.py:378-383 | every candidate tail is a graph person occurring in the text or, ungrounded, an admitted cleaned chunk |
| Fallback.FallbackTriples | back_end/entity_extractor.py:363-398 | `_fallback_regex_extraction`; `Fallback.FallbackSound` and `Fallback.FallbackGivesUp` state what it yields |
| Fallback.FallbackSound | back_end/entity_extractor.py:363-398 | every triple has a graph song as head, an allowed relation and a usable tail other than its head, and no (song, relation) pair repeats |
| Fallback.KeywordHit | back_end/entity_extractor.py:389-391 | the keyword loop reports whether some trigger of the relation fires |
| Fallback.FirstTail | back_end/entity_extractor.py:392-396 | the tail loop returns the first candidate other than the song |
| Fallback.SongTriples | back_end/entity_extractor.py:388-397 | the relation loop yields one song's triples, one per firing relation in table order |
| Fallback.SongLoop | back_end/entity_extractor.py:387-397 | the song loop concatenates each song's triples in song order |
| Fallback.ChooseTails | back_end/entity_extractor.py:374-383 | the persons in the text are used when there are any, else (ungrounded) the candidates; otherwise the stage gives up |
| Fallback.FallbackUnfold | back_end/entity_extractor.py:384-398 | once songs and tails are found, the stage's result is the song loop over the cleaned text |
| Fallback.FallbackExtraction | back_end/entity_extractor.py:363-398 | the method computes the fallback stage's triples |
| LlmStage.ExtractionPrompt | back_end/entity_extractor.py:226-238 | the extraction prompt; `LlmStage.PromptCarriesAnswer` and `LlmStage.PromptInjective` state how it holds the answer |
| LlmStage.PromptCarriesAnswer | back_end/entity_extractor.py:226-238 | the extraction prompt holds the answer verbatim between its fixed head and tail |
| LlmStage.PromptInjective | back_end/entity_extractor.py:226-238 | different answers give different prompts |
| LlmStage.BracketSpan | back_end/entity_extractor.py:243-244 | the greedy `\[.*\]` span runs from the first `[` to the last `]`; no span means no `[` comes before a `]` |
| LlmStage.ItemVerdict | back_end/entity_extractor.py:247-259 | an item that is kept yields an allowed relation; ungrounded, a non-empty head and a valid tail; grounded, a known song or album and a known person |
| LlmStage.ItemsTriples | back_end/entity_extractor.py:246-259 | the item loop, failing when an item raises; `LlmStage.ItemsTriplesSound`, `LlmStage.RaisedStays` and `LlmStage.AnyRaiseRaises` state what it yields |
| LlmStage.ItemsTriplesSound | back_end/entity_extractor.py:246-259 | when no item raises, every collected triple passed its item's validation and there are no more triples than items |
| LlmStage.RaisedStays | back_end/entity_extractor.py:242-263 | once an item raises, the whole loop raises, whatever follows |
| LlmStage.AnyRaiseRaises | back_end/entity_extractor.py:242-263 | an item that raises anywhere in the list makes the loop raise |
| LlmStage.CollectItems | back_end/entity_extractor.py:246-259 | the item loop raises exactly when some item raises, and otherwise collects the kept triples in order |
| LlmStage.LlmTriples | back_end/entity_extractor.py:240-263 | the first stage's `try` block; `LlmStage.LlmTriplesValid` and `LlmStage.NoBracketsNoTriples` state what it yields |
| LlmStage.LlmTriplesValid | back_end/entity_extractor.py:241-261 | every triple of the first stage passed its item's validation |
| LlmStage.NoBracketsNoTriples | back_end/entity_extractor.py:243-244 | a reply without `[` yields no triples |
| Extraction.NoAnswer | back_end/entity_extractor.py:216 | the guard for a missing answer; `Extraction.NoAnswerNoTriples` states its effect |
| Extraction.NoAnswerNoTriples | back_end/entity_extractor.py:216-217 | an empty or blank answer, or one that reads unknown or 未知 once stripped and lower-cased, yields no triples |
| Extraction.BlankAnswerNoTriples | back_end/entity_extractor.py:216-217 | an answer of spaces only yields no triples |
| Extraction.ExtractedTriples | back_end/entity_extractor.py:211-282 | `extract_triples_from_llm_answer`; `Extraction.NoAnswerNoTriples`, `Extraction.StagesInOrder` and `Extraction.ExtractedSound` state what it returns |
| Extraction.StagesInOrder | back_end/entity_extractor.py:260-282 | the first stage's triples win when there are any, the second's when only the first is empty, the fallback's when both are |
| Extraction.FirstStageSound | back_end/entity_extractor.py:250-259 | the first stage's triples meet the extraction bound |
| Extraction.SecondStageSound | back_end/entity_extractor.py:266-274 | the template stage's triples meet the extraction bound |
| Extraction.FallbackStageSound | back_end/entity_extractor.py:277-282 | the fallback's triples meet the extraction bound for any asked relation |
| Extraction.ExtractedSound | back_end/entity_extractor.py:211-282 | every triple has an allowed or the asked relation; grounded, a known song or album as head and a known person as tail; ungrounded, a known person or valid tail |
| Extraction.ExtractedRelationsAllowed | back_end/entity_extractor.py:211-282 | when the question asks for one of the three relations, every returned relation is allowed |
| Extraction.RunFirstStage | back_end/entity_extractor.py:240-263 | the `try` block yields the first stage's triples, and [] when no span is found, decoding fails or an item raises |
| Extraction.ExtractTriplesFromAnswer | back_end/entity_extractor.py:211-282 | the method computes the guarded three-stage result |
| Evaluate.NormalizeText | back_end/evaluate.py:42-47 | `normalize_text`; `Evaluate.NormalizeTextShape` and `Evaluate.NormalizeIdempotent` state what it yields |
| Evaluate.NormalizeTextShape | back_end/evaluate.py:42-47 | None gives ""; otherwise the result is the whitespace-free text with only punctuation cut from its two ends, holds no whitespace, and has no punctuation at either end |
| Evaluate.NormalizeIdempotent | back_end/evaluate.py:42-47 | normalising a normalised text changes nothing |
| Evaluate.NormalizeAll | back_end/evaluate.py:54 | each keyword is replaced by its normal form, position by position |
| Evaluate.SomeOccursMeaning | back_end/evaluate.py:54 | the `any` holds exactly when some normalised keyword occurs in the normalised answer |
| Evaluate.AnswerContainsAny | back_end/evaluate.py:50-54 | `answer_contains_any`; `Evaluate.AnswerContainsAnyMeaning` states when it holds |
| Evaluate.AnswerContainsAnyMeaning | back_end/evaluate.py:50-54 | no keywords means false; otherwise true exactly when some keyword's normal form occurs in the answer's normal form |
| Evaluate.TripleOf | back_end/evaluate.py:60-63 | a tuple is kept exactly when it has three components, and then as its normalised form |
| Evaluate.NormalizedSetMembers | back_end/evaluate.py:57-64 | the set holds exactly the normalised forms of the three-component tuples |
| Evaluate.NormalizedSetSize | back_end/evaluate.py:57-64 | the set has no more elements than the input has tuples |
| Evaluate.NormalizedSetNormal | back_end/evaluate.py:63 | every component of every element is already normalised |
| Evaluate.NormalizeTriples | back_end/evaluate.py:57-64 | the method builds the normalised set |
| Evaluate.SupportedOnly | back_end/evaluate.py:100 | filtering never lengthens the list |
| Evaluate.SupportedOnlyMembers | back_end/evaluate.py:100 | the filter keeps exactly the tuples whose relation is supported |
| Evaluate.SplitCount | back_end/evaluate.py:105-106 | the common part and the remainder of a set add up to its size |
| Evaluate.Metrics | back_end/evaluate.py:67-110 | the counters of `calculate_metrics`; `Evaluate.MetricsBalance` and `Evaluate.UnsupportedCaseAddsNothing` state how they add up |
| Evaluate.MetricsBalance | back_end/evaluate.py:81-110 | tp + fp is the summed size of the extracted sets and tp + fn that of the expected sets, over the scored cases; correct counts are bounded by the keyword cases, which are bounded by the cases |
| Evaluate.UnsupportedCaseAddsNothing | back_end/evaluate.py:100-110 | a case with no supported expected triple leaves the triple counters unchanged |
| Evaluate.BumpCounters | back_end/evaluate.py:88-110 | the counter updates of one case |
| Evaluate.ScoreCase | back_end/evaluate.py:82-110 | the loop body adds one readable case to the counters |
| Evaluate.TallyStep | back_end/evaluate.py:81-110 | one more readable case extends the running counters by that case |
| Evaluate.CalculateMetrics | back_end/evaluate.py:67-110 | the loop fails exactly when some case's expected tuples make the filter raise, and otherwise returns the counters over all cases |
| LlmAnswer.PadQuestion | back_end/llm.py:10-12 | the question padding; `LlmAnswer.PadQuestionEnds` and `LlmAnswer.PadQuestionIdempotent` state what it yields |
| LlmAnswer.AnswerPrompt | back_end/llm.py:14 | the answer prompt; `LlmAnswer.AnswerPromptCarries` states how it holds the question |
| LlmAnswer.PadQuestionEnds | back_end/llm.py:10-12 | the padded question ends a sentence, and 「？」 is added exactly when the stripped question does not end one |
| LlmAnswer.PadQuestionIdempotent | back_end/llm.py:10-12 | padding a padded question changes nothing |
| LlmAnswer.AnswerPromptCarries | back_end/llm.py:14 | the prompt holds the padded question between its two labels |
| LlmAnswer.NonBlankLines | back_end/llm.py:39 | no line kept by the comprehension is blank |
| LlmAnswer.DropLabel | back_end/llm.py:60 | the label step keeps a suffix of its input |
| LlmAnswer.KeptLinesMembers | back_end/llm.py:41-44 | the kept lines are exactly the lines without a thinking marker |
| LlmAnswer.UnknownWhenNothingKept | back_end/llm.py:46-47 | output made only of blank and thinking lines parses to 未知 |
| LlmAnswer.ParsedAnswer | back_end/llm.py:35-65 | `parse_llm_answer`; `LlmAnswer.ParsedAnswerFlat`, `LlmAnswer.UnknownWhenNothingKept` and `LlmAnswer.KeptLinesMembers` state what it yields |
| LlmAnswer.ParsedAnswerFlat | back_end/llm.py:57-63 | the parsed answer holds no line break and no `*` |
| LlmAnswer.ThinkingLinesDropped | back_end/llm.py:41-44 | every kept line is a non-blank line without a thinking marker |
| LlmAnswer.DropLabelMeaning | back_end/llm.py:60 | text without a label is unchanged; a label and the whitespace after it are removed |
| LlmAnswer.FilterThinking | back_end/llm.py:40-44 | the loop keeps exactly the lines without a thinking marker, in order |
| LlmAnswer.ParseLlmAnswer | back_end/llm.py:35-65 | the method computes the parsed answer |

## Left out

- Loading from the Neo4j graph (`back_end/entity_extractor.py:36-63`) is not modelled. The constructor takes its result as a value: three name sets, or a failed load.
- The singleton `get_entity_extractor` is left out. The extractor is passed explicitly.
- The language model subprocesses are not modelled; `Services.generate` stands for `_call_llm_for_extraction`, including its first-line clean-up. The same goes for the `ollama` call of `call_llm` and its error path.
- `json.loads` is not modelled and is the parameter `Services.decode`. So are `handler.get_relation_type_from_question` and `handler.extract_head_entity`; `handler` is not part of this model.
- Python's set iteration order is unspecified, and so is the order of `list(set(...))`. The model fixes one arbitrary duplicate-free enumeration.
- `re.IGNORECASE` and `str.lower` are modelled for ASCII letters only. Unicode case folding (e.g. the Kelvin sign) is not modelled.
- The float ratios of `calculate_metrics`, its printing, and the hallucination and graph-usage counters are left out. They are not part of the triple counts.
- Evaluate.Metrics: `calculate_metrics` raises ZeroDivisionError for an empty result list, when it prints the hallucination rate (`back_end/evaluate.py:130`, division by `total`). The model gives zero counters for no cases, because the printed ratios are not modelled.
- Evaluate.CalculateMetrics: the same ZeroDivisionError on an empty result list is not modelled; the loop returns zero counters and `failed` is false.
- The `str(text)` conversion in `normalize_text` is not modelled: the model's inputs are strings or None.
- `_extract_ungrounded_person_candidates` and the fallback stage read components as strings. Non-string JSON values are modelled only in the first stage's item loop.
- Lightweight.CleanAnswer: it has no contract of its own. It is a composition of `PyText` operations whose contracts carry the meaning; `Lightweight.CleanAnswerBare` states which answers it leaves alone.
- Lightweight.TrimTail: it has no contract of its own, for the same reason; `Lightweight.TrimTailBare` states which names it leaves alone.
- LlmAnswer.ParseLlmAnswer: the parsed answer may be empty (for output "答案：" or "**"). Only 未知 for fully blank output is stated.
- The root `evaluate.py` driver and the `__main__` blocks are not part of this model.
