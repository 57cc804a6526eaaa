/**
 * The FAQ tab (components/url-audit/FAQView.tsx): a spinner while loading,
 * else the error, else the competitor FAQs and the recommended FAQs, each an
 * accordion of its own, or the empty state when there are none.
 */
module FAQView {
  import opened Wrappers
  import opened Api
  import opened Accordion

  /** The view's properties; a missing `isLoading` is `false`. */
  datatype FAQViewProps = FAQViewProps(
    extractedFaqs: seq<FAQItem>,
    generatedFaqs: seq<FAQItem>,
    isLoading: bool,
    error: Option<string>)

  /** One FAQ card and whether it is expanded. */
  datatype FAQCard = FAQCard(faq: FAQItem, isOpen: bool)

  /** A section is either hidden or the list of its cards. */
  datatype FAQScreen =
    | Loading
    | ErrorBanner(message: string)
    | Content(extracted: Option<seq<FAQCard>>, generated: Option<seq<FAQCard>>, showEmptyState: bool)

  /** The cards of one section, the one at the open index expanded. */
  function Cards(faqs: seq<FAQItem>, open: Option<nat>): (cards: seq<FAQCard>)
    ensures |cards| == |faqs|
    ensures forall i :: 0 <= i < |faqs| ==> cards[i].faq == faqs[i] && (cards[i].isOpen <==> IsOpen(open, i))
  {
    var flags := OpenFlags(open, |faqs|);
    seq(|faqs|, i requires 0 <= i < |faqs| => FAQCard(faqs[i], flags[i]))
  }

  /** A section is shown exactly when its list is non-empty. */
  function Section(faqs: seq<FAQItem>, open: Option<nat>): (section: Option<seq<FAQCard>>)
    ensures section.Some? <==> |faqs| > 0
    ensures section.Some? ==> section.value == Cards(faqs, open)
  {
    if |faqs| > 0 then Some(Cards(faqs, open)) else None
  }

  /** Loading wins over an error, and an error over the FAQ content. */
  function Render(props: FAQViewProps, openExtracted: Option<nat>, openGenerated: Option<nat>): (screen: FAQScreen)
    ensures screen.Loading? <==> props.isLoading
    ensures screen.ErrorBanner? <==> !props.isLoading && Truthy(props.error)
    ensures screen.ErrorBanner? ==> screen.message == props.error.value
    ensures screen.Content? ==> screen.extracted == Section(props.extractedFaqs, openExtracted)
    ensures screen.Content? ==> screen.generated == Section(props.generatedFaqs, openGenerated)
    ensures screen.Content? ==> (screen.showEmptyState <==> screen.extracted.None? && screen.generated.None?)
  {
    if props.isLoading then Loading
    else if Truthy(props.error) then ErrorBanner(props.error.value)
    else
      Content(Section(props.extractedFaqs, openExtracted), Section(props.generatedFaqs, openGenerated),
              |props.extractedFaqs| == 0 && |props.generatedFaqs| == 0)
  }

  /** At most one card per section is expanded. */
  lemma OneOpenPerSection(faqs: seq<FAQItem>, open: Option<nat>, i: nat, j: nat)
    requires i < |faqs| && j < |faqs|
    requires Cards(faqs, open)[i].isOpen && Cards(faqs, open)[j].isOpen
    ensures i == j
  {
  }

  /** The two accordions' open items, as the view keeps them. */
  class OpenState {
    var openExtractedIndex: Option<nat>
    var openGeneratedIndex: Option<nat>

    /** The first competitor FAQ starts expanded, no recommended FAQ does. */
    constructor ()
      ensures openExtractedIndex == Some(0) && openGeneratedIndex == None
    {
      openExtractedIndex := Some(0);
      openGeneratedIndex := None;
    }

    /** A click on competitor FAQ `i`; the recommended section is untouched. */
    method ToggleExtracted(i: nat)
      modifies this
      ensures openExtractedIndex == Toggle(old(openExtractedIndex), i)
      ensures openGeneratedIndex == old(openGeneratedIndex)
    {
      openExtractedIndex := if openExtractedIndex == Some(i) then None else Some(i);
    }

    /** A click on recommended FAQ `i`; the competitor section is untouched. */
    method ToggleGenerated(i: nat)
      modifies this
      ensures openGeneratedIndex == Toggle(old(openGeneratedIndex), i)
      ensures openExtractedIndex == old(openExtractedIndex)
    {
      openGeneratedIndex := if openGeneratedIndex == Some(i) then None else Some(i);
    }
  }

  /** On first render the first competitor FAQ is the only one expanded. */
  lemma InitialRender(props: FAQViewProps)
    requires !props.isLoading && !Truthy(props.error) && |props.extractedFaqs| > 0
    ensures var screen := Render(props, Some(0), None);
      screen.extracted.Some? && screen.extracted.value[0].isOpen
      && (forall i :: 1 <= i < |props.extractedFaqs| ==> !screen.extracted.value[i].isOpen)
      && (screen.generated.Some? ==> forall i :: 0 <= i < |props.generatedFaqs| ==> !screen.generated.value[i].isOpen)
  {
  }
}
