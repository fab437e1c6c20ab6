/**
 * The single-open accordion of the FAQ section: `openIndex` names the one
 * answer on show, or none.
 */
module Faq {
  import opened Wrappers

  /** Number of questions listed. */
  const FaqCount: nat := 6

  /** Nothing is open when the section first renders. */
  const InitialOpenIndex: Option<nat> := None

  /** The click handler of item `index`. */
  function Click(openIndex: Option<nat>, index: nat): Option<nat> {
    if openIndex == Some(index) then None else Some(index)
  }

  /** Whether item `index` shows its answer. */
  predicate IsOpen(openIndex: Option<nat>, index: nat) {
    openIndex == Some(index)
  }

  /** The listed items that show their answer. */
  function OpenItems(openIndex: Option<nat>): set<nat> {
    set i: nat | i < FaqCount && IsOpen(openIndex, i)
  }

  /** At most one answer is on show; none at first. */
  lemma AtMostOneOpen(openIndex: Option<nat>)
    ensures |OpenItems(openIndex)| <= 1
    ensures OpenItems(InitialOpenIndex) == {}
  {
    if openIndex.Some? && openIndex.value < FaqCount {
      assert OpenItems(openIndex) == {openIndex.value};
    } else {
      assert OpenItems(openIndex) == {};
    }
  }

  /** Clicking the open item closes every item. */
  lemma ClickOpenClosesAll(openIndex: Option<nat>, index: nat)
    requires IsOpen(openIndex, index)
    ensures forall j: nat :: !IsOpen(Click(openIndex, index), j)
  {
  }

  /** Clicking a closed item makes it the only open item. */
  lemma ClickClosedOpensOnlyIt(openIndex: Option<nat>, index: nat)
    requires !IsOpen(openIndex, index)
    ensures forall j: nat :: IsOpen(Click(openIndex, index), j) <==> j == index
  {
  }

  /** Two clicks on the same item restore the state exactly when that item or
      nothing was open before; from another open item they close everything. */
  lemma ClickTwice(openIndex: Option<nat>, index: nat)
    ensures Click(Click(openIndex, index), index) == openIndex <==>
      (openIndex == None || openIndex == Some(index))
    ensures openIndex.Some? && openIndex != Some(index) ==>
      Click(Click(openIndex, index), index) == None
    ensures Click(Click(InitialOpenIndex, index), index) == InitialOpenIndex
  {
  }
}
