/** The `combined_input` string that client.py line 90 substitutes into the
    prompt template: three headed sections in a fixed order. */
module Prompt {
  import opened Text

  const SummaryHeading := "Dataset summary:\n"
  const HistoryHeading := "\n\nConversation history:\n"
  const QuestionHeading := "\n\nUser's question:\n"

  /** The summary section opens the input, the question section closes it,
      and the transcript sits between the two headings that surround it. */
  function CombinedInput(summary: string, history: string, question: string): (r: string)
    ensures SummaryHeading + summary <= r
    ensures EndsWith(r, QuestionHeading + question)
    ensures |r| == |SummaryHeading| + |summary| + |HistoryHeading| + |history| + |QuestionHeading| + |question|
  {
    SummaryHeading + summary + HistoryHeading + history + QuestionHeading + question
  }

  /** Offset at which the transcript section starts. */
  function HistoryStart(summary: string): nat
  {
    |SummaryHeading| + |summary| + |HistoryHeading|
  }

  /** The transcript sits, unaltered, right after the history heading and is
      followed directly by the question heading. */
  lemma HistorySection(summary: string, history: string, question: string)
    ensures var r := CombinedInput(summary, history, question);
      var a := HistoryStart(summary);
      && a + |history| <= |r|
      && r[a - |HistoryHeading|..a] == HistoryHeading
      && r[a..a + |history|] == history
      && QuestionHeading <= r[a + |history|..]
  {
    var r := CombinedInput(summary, history, question);
    var a := HistoryStart(summary);
    var front := SummaryHeading + summary + HistoryHeading;
    assert r == front + (history + (QuestionHeading + question));
    assert r[..a] == front;
    assert r[a..] == history + (QuestionHeading + question);
    assert r[a..][..|history|] == history;
    assert r[a..][|history|..] == QuestionHeading + question;
  }

  /** Whatever the transcript ends with is followed directly by the question
      section at the end of the combined input. */
  lemma QuestionAfterTranscript(summary: string, history: string, lastLine: string, question: string)
    requires EndsWith(history, lastLine)
    ensures EndsWith(CombinedInput(summary, history, question), lastLine + QuestionHeading + question)
  {
    EndsWithAppend(SummaryHeading + summary + HistoryHeading + history, lastLine, QuestionHeading + question);
    assert lastLine + (QuestionHeading + question) == lastLine + QuestionHeading + question;
  }

  /** A single-line question can be read back as the input's last line. */
  lemma QuestionIsLastLine(summary: string, history: string, question: string)
    requires '\n' !in question
    ensures LastLine(CombinedInput(summary, history, question)) == question
  {
    var front := SummaryHeading + summary + HistoryHeading + history + "\n\nUser's question:";
    assert CombinedInput(summary, history, question) == front + "\n" + question;
    SplitSnoc(front, question);
  }
}
