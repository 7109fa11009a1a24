/** The FAQ page of src/pages/Faq.jsx: a list of questions of which at most one
    is open at a time; clicking a question opens it and closes any other, and
    clicking the open one closes it. */
module Faq {
  import opened Js
  import opened Lists

  datatype Entry = Entry(question: string, answer: string)

  const NoFaqsMessage: string := "No FAQs available at the moment. Please check back later!"

  /** `toggleAccordion(index)`: `null` when `index` was the open item, `index` otherwise. */
  function NextActive(active: Option<nat>, index: nat): (r: Option<nat>)
    ensures r == None <==> active == Some(index)
    ensures r != None ==> r == Some(index)
  {
    if active == Some(index) then None else Some(index)
  }

  /** How an item is drawn: open or closed, with its fade-in delay `index * 100`. */
  datatype ItemView = ItemView(entry: Entry, open: bool, aosDelay: nat)

  /** The item's class: `accordion-item card` with `active` when it is the open one. */
  function ItemClass(active: Option<nat>, index: nat): (r: string)
    ensures r == "accordion-item card active" <==> active == Some(index)
  {
    "accordion-item card " + (if active == Some(index) then "active" else "")
  }

  /** The answer panel's `maxHeight`: `'200px'` for the open item, `'0'` otherwise. */
  function MaxHeight(active: Option<nat>, index: nat): (r: string)
    ensures r == "200px" <==> active == Some(index)
    ensures r == "0" <==> active != Some(index)
  {
    if active == Some(index) then "200px" else "0"
  }

  /** The accordion section: one view per entry with the open flag set on the
      active index only, or the empty-list message. */
  function Accordion(faqs: seq<Entry>, active: Option<nat>): (r: Section<ItemView>)
    ensures r.Grid? <==> |faqs| > 0
    ensures r.EmptyMessage? ==> r.text == NoFaqsMessage
    ensures r.Grid? ==> |r.items| == |faqs| && forall i :: 0 <= i < |faqs| ==>
      r.items[i].entry == faqs[i] && (r.items[i].open <==> active == Some(i)) && r.items[i].aosDelay == i * 100
  {
    GridOrMessage(seq(|faqs|, i requires 0 <= i < |faqs| => ItemView(faqs[i], active == Some(i), i * 100)),
                  NoFaqsMessage)
  }

  class FaqPage {
    const faqs: seq<Entry>
    /** `activeIndex`: `None` is `null`. */
    var activeIndex: Option<nat>

    /** First render: every question closed. */
    constructor (faqs: seq<Entry>)
      ensures this.faqs == faqs && activeIndex == None
    {
      this.faqs := faqs;
      activeIndex := None;
    }

    /** A click on the header of item `index`. */
    method Toggle(index: nat)
      modifies this
      ensures activeIndex == NextActive(old(activeIndex), index)
    {
      if activeIndex == Some(index) {
        activeIndex := None;
      } else {
        activeIndex := Some(index);
      }
    }

    function View(): (r: Section<ItemView>)
      reads this
    {
      Accordion(faqs, activeIndex)
    }
  }

  /** At most one item is ever drawn open, whatever the state. */
  lemma AtMostOneOpen(faqs: seq<Entry>, active: Option<nat>)
    ensures Accordion(faqs, active).Grid? ==> forall i, j ::
      0 <= i < j < |Accordion(faqs, active).items| ==>
      !(Accordion(faqs, active).items[i].open && Accordion(faqs, active).items[j].open)
  {
  }

  /** Clicking the same question twice returns to the state before exactly when
      that question was open or nothing was. */
  lemma ToggleTwice(active: Option<nat>, index: nat)
    ensures NextActive(NextActive(active, index), index) == active <==> (active == None || active == Some(index))
  {
  }

  /** A click on a different question moves the open item there, closing the other. */
  lemma ToggleOtherMovesOpenItem(j: nat, index: nat)
    requires j != index
    ensures NextActive(Some(j), index) == Some(index)
    ensures MaxHeight(NextActive(Some(j), index), j) == "0"
  {
  }

  /** A session: opening the first question, then the third, then the third again leaves all closed. */
  method ClickSession(faqs: seq<Entry>)
    returns (firstOpen: bool, thirdOpen: bool, active: Option<nat>)
    requires |faqs| >= 3
    ensures !firstOpen && thirdOpen && active == None
  {
    var page := new FaqPage(faqs);
    page.Toggle(0);
    assert page.View().items[0].open;
    page.Toggle(2);
    firstOpen, thirdOpen := page.View().items[0].open, page.View().items[2].open;
    page.Toggle(2);
    active := page.activeIndex;
  }
}
