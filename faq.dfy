/** The FAQ accordion: one `openIndex` that a click on a question toggles,
    so that at most one answer is expanded. */
module Faq {
  import opened Js

  /** The number of questions listed. */
  const FaqCount := 5

  /** `openIndex === idx ? null : idx`. */
  function Toggled(open: Option<nat>, idx: nat): (r: Option<nat>)
    ensures open == Some(idx) ==> r == None
    ensures open != Some(idx) ==> r == Some(idx)
  {
    if open == Some(idx) then None else Some(idx)
  }

  /** Whether the answer at `idx` is expanded (`openIndex === idx`). */
  predicate Expanded(open: Option<nat>, idx: nat) {
    open == Some(idx)
  }

  /** At most one answer is expanded, whatever the previous state. */
  lemma AtMostOneExpanded(open: Option<nat>, idx: nat, i: nat, j: nat)
    requires Expanded(Toggled(open, idx), i) && Expanded(Toggled(open, idx), j)
    ensures i == j == idx
  {
  }

  /** Clicking the same question twice from the closed state closes it again,
      and from its own open state opens it again. */
  lemma ToggleTwice(open: Option<nat>, idx: nat)
    ensures open == None ==> Toggled(Toggled(open, idx), idx) == None
    ensures open == Some(idx) ==> Toggled(Toggled(open, idx), idx) == Some(idx)
    ensures open.Some? && open != Some(idx) ==> Toggled(Toggled(open, idx), idx) == None
  {
  }

  class Accordion {
    var openIndex: Option<nat>

    constructor ()
      ensures openIndex == None
    {
      openIndex := None;
    }

    /** The click handler of question `idx`. */
    method Toggle(idx: nat)
      modifies this
      ensures openIndex == Toggled(old(openIndex), idx)
      ensures forall i :: Expanded(openIndex, i) ==> i == idx
    {
      openIndex := if openIndex == Some(idx) then None else Some(idx);
    }

    /** The answers rendered expanded, among the listed ones. */
    function ExpandedAnswers(): (open: set<nat>)
      reads this
      ensures |open| <= 1
      ensures forall i: nat :: i in open <==> i < FaqCount && Expanded(openIndex, i)
    {
      if openIndex.Some? && openIndex.value < FaqCount then {openIndex.value} else {}
    }
  }
}
