/**
 * The FAQ section: an accordion in which at most one answer is open.
 * `openIndex` is the open item's position, or `null` when all are closed.
 */
module Faq {
  import opened Wrappers

  /** `openIndex === index ? null : index`. */
  function Toggled(openIndex: Option<nat>, index: nat): (r: Option<nat>)
    ensures r == None <==> openIndex == Some(index)
    ensures r != None ==> r == Some(index)
  {
    if openIndex == Some(index) then None else Some(index)
  }

  /**
   * Toggling an item twice gives the accordion back when that item was
   * open or nothing was; when another item was open, it stays closed.
   */
  lemma ToggledTwice(openIndex: Option<nat>, index: nat)
    ensures openIndex == Some(index) || openIndex == None ==> Toggled(Toggled(openIndex, index), index) == openIndex
    ensures openIndex.Some? && openIndex != Some(index) ==> Toggled(Toggled(openIndex, index), index) == None
  {
  }

  /** Which of `count` answers are rendered: `openIndex === index && <answer>`. */
  function Rendered(openIndex: Option<nat>, count: nat): (shown: seq<bool>)
    ensures |shown| == count
    ensures forall i :: 0 <= i < count ==> (shown[i] <==> openIndex == Some(i))
  {
    seq(count, i requires 0 <= i < count => openIndex == Some(i))
  }

  /** The number of answers shown. */
  function ShownCount(shown: seq<bool>): nat
  {
    if shown == [] then 0 else ShownCount(shown[..|shown| - 1]) + (if shown[|shown| - 1] then 1 else 0)
  }

  /** Exactly one answer is shown when the open index is on the list, none otherwise. */
  lemma {:induction false} ShownCountRendered(openIndex: Option<nat>, count: nat)
    ensures ShownCount(Rendered(openIndex, count)) == if openIndex.Some? && openIndex.value < count then 1 else 0
  {
    if count > 0 {
      assert Rendered(openIndex, count)[..count - 1] == Rendered(openIndex, count - 1);
      ShownCountRendered(openIndex, count - 1);
    }
  }

  /** The accordion state of the section. */
  class Accordion {
    var openIndex: Option<nat>

    /** The first question starts open. */
    constructor ()
      ensures openIndex == Some(0)
    {
      openIndex := Some(0);
    }

    /** The answer at `index` is rendered. */
    predicate IsOpen(index: nat)
      reads this
    {
      openIndex == Some(index)
    }

    /** `toggle(index)`: closes the item if it is open, else opens it alone. */
    method Toggle(index: nat)
      modifies this
      ensures openIndex == Toggled(old(openIndex), index)
      ensures IsOpen(index) <==> !old(IsOpen(index))
      ensures forall j :: j != index ==> !IsOpen(j)
    {
      openIndex := if openIndex == Some(index) then None else Some(index);
    }
  }

  /** Opening items one after another leaves only the last one open. */
  method OpenInTurn(indices: seq<nat>) returns (faq: Accordion)
    requires |indices| >= 1
    requires forall k :: 0 <= k < |indices| ==> indices[k] != 0
    requires forall k :: 0 < k < |indices| ==> indices[k] != indices[k - 1]
    ensures faq.openIndex == Some(indices[|indices| - 1])
    ensures ShownCount(Rendered(faq.openIndex, indices[|indices| - 1] + 1)) == 1
  {
    faq := new Accordion();
    var k := 0;
    while k < |indices|
      invariant 0 <= k <= |indices|
      invariant k == 0 ==> faq.openIndex == Some(0)
      invariant k > 0 ==> faq.openIndex == Some(indices[k - 1])
    {
      faq.Toggle(indices[k]);
      k := k + 1;
    }
    ShownCountRendered(faq.openIndex, indices[|indices| - 1] + 1);
  }
}
