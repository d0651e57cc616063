/** The fixed prompt template of hello.py (`prompt_prefix`) and how the
    sources block and the question are put into it. */
module Template {
  import opened Strings

  /** The template's text around its three placeholders, as written in the
      source: eight-space indentation and empty lines between sections. */
  const Indent := "        "
  const SourcesHeading := "\n" + Indent + "Sources:" + "\n" + Indent
  const ChatHistoryHeading := "\n\n" + Indent + "Chat History:" + "\n" + Indent
  const QuestionHeading := "\n\n" + Indent + "Question:" + "\n" + Indent
  const Trailer := "\n" + Indent

  /** `prompt_prefix.format(...)`. Python's `format` inserts the values as they
      are, so braces inside them are not interpreted; the extra
      `injected_prompt` argument has no placeholder and has no effect. */
  function FormatPrompt(sources: string, chatHistory: string, question: string): string {
    SourcesHeading + sources + ChatHistoryHeading + chatHistory + QuestionHeading + question + Trailer
  }

  /** The prompt the source builds: the chat history slot is always empty. */
  function BuildPrompt(sources: string, question: string): string {
    FormatPrompt(sources, "", question)
  }

  /** In a text made of seven pieces, each piece occurs at the sum of the
      lengths of the pieces before it. */
  lemma {:induction false} PiecesAt(a: string, b: string, c: string, d: string, e: string, f: string, g: string)
    ensures var p := a + b + c + d + e + f + g;
      && |p| == |a| + |b| + |c| + |d| + |e| + |f| + |g|
      && OccursAt(a, p, 0)
      && OccursAt(b, p, |a|)
      && OccursAt(c, p, |a| + |b|)
      && OccursAt(d, p, |a| + |b| + |c|)
      && OccursAt(e, p, |a| + |b| + |c| + |d|)
      && OccursAt(f, p, |a| + |b| + |c| + |d| + |e|)
      && OccursAt(g, p, |a| + |b| + |c| + |d| + |e| + |f|)
  {
    var p := a + b + c + d + e + f + g;
    var i := |a| + |b| + |c| + |d| + |e|;
    assert p[..|a|] == a;
    assert p[|a|..|a| + |b|] == b;
    assert p[|a| + |b|..|a| + |b| + |c|] == c;
    assert p[|a| + |b| + |c|..|a| + |b| + |c| + |d|] == d;
    assert p[|a| + |b| + |c| + |d|..i] == e;
    assert p[i..i + |f|] == f;
    assert p[i + |f|..] == g;
  }

  /** Where the heading words sit in the fixed template text. */
  lemma HeadingsAt()
    ensures |SourcesHeading| == 26 && |ChatHistoryHeading| == 32 && |QuestionHeading| == 28 && |Trailer| == 9
    ensures OccursAt("Sources:", SourcesHeading, 9)
    ensures OccursAt("Chat History:", ChatHistoryHeading, 10)
    ensures OccursAt("Question:", QuestionHeading, 10)
  {
    assert SourcesHeading == ("\n" + Indent) + "Sources:" + ("\n" + Indent);
    assert ChatHistoryHeading == ("\n\n" + Indent) + "Chat History:" + ("\n" + Indent);
    assert QuestionHeading == ("\n\n" + Indent) + "Question:" + ("\n" + Indent);
  }

  /** Where everything sits in a prompt: the headings `Sources:`,
      `Chat History:` and `Question:` in that order; the sources block
      verbatim right under the first; the question heading straight after
      the chat history heading, so the history slot holds nothing; the
      question verbatim under the last heading, followed only by the
      template's closing newline and indentation. */
  lemma PromptLayout(sources: string, question: string)
    ensures var p, s := BuildPrompt(sources, question), |SourcesHeading| + |sources|;
      && |p| == |sources| + |question| + 95
      && OccursAt("Sources:", p, 9)
      && OccursAt(sources, p, |SourcesHeading|)
      && OccursAt(ChatHistoryHeading, p, s)
      && OccursAt("Chat History:", p, s + 10)
      && OccursAt(QuestionHeading, p, s + |ChatHistoryHeading|)
      && OccursAt("Question:", p, s + |ChatHistoryHeading| + 10)
      && OccursAt(question, p, |p| - |Trailer| - |question|)
      && OccursAt(Trailer, p, |p| - |Trailer|)
  {
    var p := BuildPrompt(sources, question);
    var s := |SourcesHeading| + |sources|;
    PiecesAt(SourcesHeading, sources, ChatHistoryHeading, "", QuestionHeading, question, Trailer);
    HeadingsAt();
    OccursWithin("Sources:", SourcesHeading, 9, p, 0);
    OccursWithin("Chat History:", ChatHistoryHeading, 10, p, s);
    OccursWithin("Question:", QuestionHeading, 10, p, s + |ChatHistoryHeading|);
  }

  /** Moving text across the boundary of two adjacent slots leaves the
      concatenation unchanged. */
  lemma ShiftAcrossSlots(h: string, s: string, c: string, q: string, x: string, t: string)
    ensures h + s + c + "" + q + (c + q + x) + t == h + (s + c + q) + c + "" + q + x + t
  {
  }

  /** The boundary between the sources block and the question cannot be
      recovered from the prompt: text that looks like the two headings in
      between can belong to either. */
  lemma PromptNotInjective(sources: string, question: string)
    ensures BuildPrompt(sources, ChatHistoryHeading + QuestionHeading + question)
         == BuildPrompt(sources + ChatHistoryHeading + QuestionHeading, question)
  {
    ShiftAcrossSlots(SourcesHeading, sources, ChatHistoryHeading, QuestionHeading, question, Trailer);
  }
}
