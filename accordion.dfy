/**
 * The one-open-item accordion used by the FAQ sections
 * (components/url-audit/FAQView.tsx) and the parameter cards
 * (components/url-audit/EvaluatePageView.tsx): the state is the index of the
 * open item, or none, and a click on item `i` runs
 * `setOpen(open === i ? null : i)`.
 */
module Accordion {
  import opened Wrappers

  predicate IsOpen(open: Option<nat>, i: nat) {
    open == Some(i)
  }

  /** The click handler of item `i`. */
  function Toggle(open: Option<nat>, i: nat): (after: Option<nat>)
    ensures forall j :: IsOpen(after, j) <==> j == i && !IsOpen(open, i)
    ensures after == None <==> IsOpen(open, i)
  {
    if open == Some(i) then None else Some(i)
  }

  /**
   * Clicking the same item twice restores the state only when that item or
   * none was open: a different open item is closed by the first click.
   */
  lemma ToggleTwice(open: Option<nat>, i: nat)
    ensures Toggle(Toggle(open, i), i) == (if IsOpen(open, i) then open else None)
    ensures open == None || IsOpen(open, i) ==> Toggle(Toggle(open, i), i) == open
  {
  }

  /** The open flag of each of `n` items, as the list renders them. */
  function OpenFlags(open: Option<nat>, n: nat): (flags: seq<bool>)
    ensures |flags| == n
    ensures forall i :: 0 <= i < n ==> (flags[i] <==> IsOpen(open, i))
    ensures forall i, j :: 0 <= i < n && 0 <= j < n && flags[i] && flags[j] ==> i == j
  {
    seq(n, i requires 0 <= i < n => IsOpen(open, i))
  }
}
