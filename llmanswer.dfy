/**
 * The answer side of `call_llm`: the question is padded with a question mark
 * and wrapped in the answering prompt, and the model's raw output is reduced
 * to one line of answer text by `parse_llm_answer`.
 */
module LlmAnswer {
  import opened PyText

  /** The endings `call_llm` accepts as already terminated: `? ？ . 。 ! ！`. */
  const Terminators: set<char> := {'?', '？', '.', '。', '!', '！'}

  /** `q.endswith(('?', '？', '.', '。', '!', '！'))`. */
  predicate Terminated(q: string)
  {
    q != [] && q[|q| - 1] in Terminators
  }

  /** `call_llm`'s clean-up of the question: strip it and add 「？」 unless it already ends a sentence. */
  function PadQuestion(question: string): string
  {
    var q := Strip(question);
    if Terminated(q) then q else q + "？"
  }

  /** The padded question always ends a sentence, and 「？」 is added exactly when the stripped question does not. */
  lemma PadQuestionEnds(question: string)
    ensures Terminated(PadQuestion(question))
    ensures Terminated(Strip(question)) <==> PadQuestion(question) == Strip(question)
    ensures !Terminated(Strip(question)) <==> PadQuestion(question) == Strip(question) + "？"
  {
    var q := Strip(question);
    if !Terminated(q) {
      assert |PadQuestion(question)| == |q| + 1;
    }
  }

  /** Padding a padded question changes nothing. */
  lemma PadQuestionIdempotent(question: string)
    ensures PadQuestion(PadQuestion(question)) == PadQuestion(question)
  {
    var q := Strip(question);
    var p := PadQuestion(question);
    PadQuestionEnds(question);
    if q != [] {
      assert p[0] == q[0];
    }
    assert p[0] !in Whitespace && p[|p| - 1] !in Whitespace;
    assert Strip(p) == p;
  }

  /** `full_prompt`. */
  function AnswerPrompt(question: string): string
  {
    "问题：" + PadQuestion(question) + "\n回答："
  }

  /** The prompt holds the padded question between its two labels. */
  lemma AnswerPromptCarries(question: string)
    ensures AnswerPrompt(question)[3..|AnswerPrompt(question)| - 4] == PadQuestion(question)
  {
  }

  // ---------------------------------------------------------------------------
  // parse_llm_answer

  /** What the raw output becomes when nothing is left of it. */
  const Unknown: string := "未知"

  /** The thinking-chain markers. */
  predicate ThinkingLine(line: string)
  {
    StartsWith(line, "Thinking...") || Contains(line, "...done thinking")
  }

  /** `[line.strip() for line in text.split('\n') if line.strip()]`. */
  function NonBlankLines(parts: seq<string>): (r: seq<string>)
    ensures forall k | 0 <= k < |r| :: r[k] != []
  {
    if parts == [] then []
    else if Strip(parts[0]) != [] then [Strip(parts[0])] + NonBlankLines(parts[1..])
    else NonBlankLines(parts[1..])
  }

  /** The lines the `for line in lines` loop keeps. */
  function KeptLines(lines: seq<string>): seq<string>
  {
    if lines == [] then []
    else
      var rest := KeptLines(lines[..|lines| - 1]);
      if ThinkingLine(lines[|lines| - 1]) then rest else rest + [lines[|lines| - 1]]
  }

  /** The label pattern `^(答案|回答|Answer)[:：]`: the length of the label word, when one starts `s`. */
  function LabelLength(s: string): nat
  {
    if |s| >= 3 && (s[..2] == "答案" || s[..2] == "回答") && s[2] in {':', '：'} then 2
    else if |s| >= 7 && Lower(s[..6]) == "answer" && s[6] in {':', '：'} then 6
    else 0
  }

  /** `re.sub(r'^(答案|回答|Answer)[:：]\s*', '', s, flags=re.IGNORECASE)`. */
  function DropLabel(s: string): (r: string)
    ensures |r| <= |s| && r == s[|s| - |r|..]
  {
    var n := LabelLength(s);
    if n == 0 then s else LStrip(s[n + 1..], Whitespace)
  }

  /** `parse_llm_answer`. */
  function ParsedAnswer(text: string): string
  {
    var cleaned := KeptLines(NonBlankLines(Split(text, '\n')));
    if cleaned == [] then Unknown
    else RemoveChars(DropLabel(Join(cleaned, ' ')), {'*'})
  }

  // ---------------------------------------------------------------------------
  // Properties

  /** The lines kept are exactly the lines without a thinking marker, in order. */
  lemma {:induction false} KeptLinesMembers(lines: seq<string>)
    ensures forall l :: l in KeptLines(lines) <==> l in lines && !ThinkingLine(l)
    ensures |KeptLines(lines)| <= |lines|
  {
    if lines != [] {
      var init := lines[..|lines| - 1];
      KeptLinesMembers(init);
      assert lines == init + [lines[|lines| - 1]];
    }
  }

  /** A character absent from every part is absent from every non-blank line. */
  lemma {:induction false} NonBlankLinesFrom(parts: seq<string>, c: char)
    requires forall k | 0 <= k < |parts| :: c !in parts[k]
    ensures forall k | 0 <= k < |NonBlankLines(parts)| :: c !in NonBlankLines(parts)[k]
  {
    if parts != [] {
      NonBlankLinesFrom(parts[1..], c);
      SliceChars(Strip(parts[0]), parts[0]);
      var r := NonBlankLines(parts);
      if Strip(parts[0]) != [] {
        forall k | 0 <= k < |r| ensures c !in r[k] {
          if k > 0 {
            assert r[k] == NonBlankLines(parts[1..])[k - 1];
          }
        }
      }
    }
  }

  /** A character absent from every line is absent from every kept line. */
  lemma {:induction false} KeptLinesFrom(lines: seq<string>, c: char)
    requires forall k | 0 <= k < |lines| :: c !in lines[k]
    ensures forall k | 0 <= k < |KeptLines(lines)| :: c !in KeptLines(lines)[k]
  {
    KeptLinesMembers(lines);
    forall k | 0 <= k < |KeptLines(lines)| ensures c !in KeptLines(lines)[k] {
      assert KeptLines(lines)[k] in lines;
    }
  }

  /** `parse_llm_answer` yields 未知 when every line is blank or a thinking line. */
  lemma UnknownWhenNothingKept(text: string)
    requires forall l | l in NonBlankLines(Split(text, '\n')) :: ThinkingLine(l)
    ensures ParsedAnswer(text) == Unknown
  {
    var kept := KeptLines(NonBlankLines(Split(text, '\n')));
    KeptLinesMembers(NonBlankLines(Split(text, '\n')));
    assert forall k | 0 <= k < |kept| :: kept[k] in kept;
  }

  /** The kept lines, joined, form a single line. */
  lemma JoinedFlat(text: string)
    ensures '\n' !in Join(KeptLines(NonBlankLines(Split(text, '\n'))), ' ')
  {
    var lines := NonBlankLines(Split(text, '\n'));
    NonBlankLinesFrom(Split(text, '\n'), '\n');
    KeptLinesFrom(lines, '\n');
    JoinExcludes(KeptLines(lines), ' ', '\n');
  }

  /** The label step and the markdown step add no character. */
  lemma FinishKeeps(s: string, c: char)
    requires c !in s
    ensures c !in RemoveChars(DropLabel(s), {'*'})
  {
    var dropped := DropLabel(s);
    assert forall k | 0 <= k < |dropped| :: dropped[k] == s[|s| - |dropped| + k];
    var r := RemoveChars(dropped, {'*'});
    assert forall k | 0 <= k < |r| :: r[k] in dropped;
  }

  /** The answer is a single line without markdown emphasis. */
  lemma ParsedAnswerFlat(text: string)
    ensures '\n' !in ParsedAnswer(text)
    ensures '*' !in ParsedAnswer(text)
  {
    var kept := KeptLines(NonBlankLines(Split(text, '\n')));
    if kept != [] {
      JoinedFlat(text);
      FinishFlat(Join(kept, ' '));
    }
  }

  /** The label step and the markdown step turn a single line into a single line without `*`. */
  lemma FinishFlat(s: string)
    requires '\n' !in s
    ensures '\n' !in RemoveChars(DropLabel(s), {'*'})
    ensures '*' !in RemoveChars(DropLabel(s), {'*'})
  {
    FinishKeeps(s, '\n');
    StarsRemoved(DropLabel(s));
  }

  /** The markdown step leaves no asterisk. */
  lemma StarsRemoved(s: string)
    ensures '*' !in RemoveChars(s, {'*'})
  {
    var r := RemoveChars(s, {'*'});
    assert forall k | 0 <= k < |r| :: r[k] != '*';
  }

  /** Only the lines without a thinking marker reach the answer: the answer is built from exactly those. */
  lemma ThinkingLinesDropped(text: string)
    ensures forall l | l in KeptLines(NonBlankLines(Split(text, '\n'))) ::
      !ThinkingLine(l) && l in NonBlankLines(Split(text, '\n'))
  {
    KeptLinesMembers(NonBlankLines(Split(text, '\n')));
  }

  /** Text without a label is left alone by the label step; a label and the whitespace after it are removed. */
  lemma DropLabelMeaning(s: string)
    ensures LabelLength(s) == 0 ==> DropLabel(s) == s
    ensures LabelLength(s) != 0 ==> DropLabel(s) == LStrip(s[LabelLength(s) + 1..], Whitespace)
    ensures (!StartsWith(s, "答案") && !StartsWith(s, "回答") && (|s| < 6 || Lower(s[..6]) != "answer")) ==> DropLabel(s) == s
  {
  }

  // ---------------------------------------------------------------------------
  // The loop

  /** The `for line in lines` loop of `parse_llm_answer`. */
  method FilterThinking(lines: seq<string>) returns (cleanedLines: seq<string>)
    ensures cleanedLines == KeptLines(lines)
  {
    cleanedLines := [];
    for i := 0 to |lines|
      invariant cleanedLines == KeptLines(lines[..i])
    {
      assert lines[..i + 1][..i] == lines[..i];
      var line := lines[i];
      if StartsWith(line, "Thinking...") || Contains(line, "...done thinking") {
        continue;
      }
      cleanedLines := cleanedLines + [line];
    }
    assert lines[..|lines|] == lines;
  }

  /** `parse_llm_answer` as written. */
  method ParseLlmAnswer(text: string) returns (answer: string)
    ensures answer == ParsedAnswer(text)
  {
    var lines := NonBlankLines(Split(text, '\n'));
    var cleanedLines := FilterThinking(lines);
    if cleanedLines == [] {
      return Unknown;
    }
    var fullText := Join(cleanedLines, ' ');
    fullText := DropLabel(fullText);
    fullText := RemoveChars(fullText, {'*'});
    return fullText;
  }
}
