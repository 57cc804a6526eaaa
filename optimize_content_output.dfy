/**
 * The text shown by the optimised-content view
 * (components/optimize-content/OptimizeContentOutput.tsx): FAQ pairs as
 * "Q:/A:" blocks, the table of contents and the heading lists one per line.
 */
module OptimizeContentOutput {
  import opened Wrappers
  import opened Text
  import opened Seqs
  import opened Api

  /** One FAQ as shown: "Q: <question>", a newline, "A: <answer>". */
  function FAQBlock(faq: FAQItem): string
  {
    "Q: " + faq.question + "\nA: " + faq.answer
  }

  /** When the question has no newline, the block splits at its first newline back into the question and answer lines. */
  lemma FAQBlockRoundTrip(faq: FAQItem)
    requires '\n' !in faq.question
    ensures var block := FAQBlock(faq);
      var i := IndexOf(block, '\n');
      i < |block| && block[..i] == "Q: " + faq.question && block[i + 1..] == "A: " + faq.answer
  {
    var block := FAQBlock(faq);
    var i := 3 + |faq.question|;
    assert block[i] == '\n';
    forall k | 0 <= k < i ensures block[k] != '\n' {
      if k >= 3 {
        assert block[k] == faq.question[k - 3];
      }
    }
    IndexOfAt(block, '\n', i);
    assert block[..i] == "Q: " + faq.question;
    assert block[i + 1..] == "A: " + faq.answer;
  }

  /** `formattedFAQs`: the blocks in input order, separated by a blank line. */
  function FormattedFAQs(faqs: seq<FAQItem>): string
  {
    Join(Map(FAQBlock, faqs), "\n\n")
  }

  /** No FAQs give the empty string; one FAQ gives exactly its block. */
  lemma FormattedFAQsSmall(faqs: seq<FAQItem>)
    ensures faqs == [] ==> FormattedFAQs(faqs) == ""
    ensures |faqs| == 1 ==> FormattedFAQs(faqs) == FAQBlock(faqs[0])
  {
  }

  /** A further FAQ adds a blank line and its block at the end: the order of the input is kept. */
  lemma FormattedFAQsSnoc(faqs: seq<FAQItem>, faq: FAQItem)
    requires faqs != []
    ensures FormattedFAQs(faqs + [faq]) == FormattedFAQs(faqs) + "\n\n" + FAQBlock(faq)
  {
    MapAppend(FAQBlock, faqs, [faq]);
    assert Map(FAQBlock, [faq]) == [FAQBlock(faq)];
    JoinSnoc(Map(FAQBlock, faqs), FAQBlock(faq), "\n\n");
  }

  /** `formattedTOC`, and the H2 and H3 sections: the entries one per line. */
  function Lines(entries: seq<string>): string
  {
    Join(entries, "\n")
  }

  /**
   * The lines come back out in order: splitting the text at its newlines
   * recovers the entries, as long as no entry itself holds a newline.
   */
  lemma LinesRoundTrip(entries: seq<string>)
    requires entries != []
    requires forall k :: 0 <= k < |entries| ==> '\n' !in entries[k]
    ensures Split(Lines(entries), '\n') == entries
  {
    SplitJoin(entries, '\n');
  }

  /** A single entry is shown as itself. */
  lemma LinesSingle(entry: string)
    ensures Lines([entry]) == entry
  {
  }

  /** What the view shows. */
  datatype OutputView =
    | NoDataFallback
    | Sections(
        title: string,
        metaDescription: string,
        h1: string,
        tableOfContents: string,
        h2Headings: string,
        h3Headings: string,
        content: string,
        faqs: string,
        schemaMarkup: string)

  /** Missing data shows only the fallback; otherwise every section is shown, the lists formatted. */
  function Render(data: Option<OptimizeContentResponse>): (view: OutputView)
    ensures view.NoDataFallback? <==> data.None?
    ensures data.Some? ==> view.tableOfContents == Lines(data.value.tableOfContents)
    ensures data.Some? ==> view.h2Headings == Lines(data.value.h2Headings)
    ensures data.Some? ==> view.h3Headings == Lines(data.value.h3Headings)
    ensures data.Some? ==> view.faqs == FormattedFAQs(data.value.faqs)
    ensures data.Some? ==> view.title == data.value.title && view.content == data.value.content
    ensures data.Some? ==> view.metaDescription == data.value.metaDescription && view.h1 == data.value.h1
    ensures data.Some? ==> view.schemaMarkup == data.value.schemaMarkup
  {
    match data
    case None => NoDataFallback
    case Some(d) =>
      Sections(d.title, d.metaDescription, d.h1, Lines(d.tableOfContents), Lines(d.h2Headings),
               Lines(d.h3Headings), d.content, FormattedFAQs(d.faqs), d.schemaMarkup)
  }
}
