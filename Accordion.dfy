/** The reusable accordion of src/components/UI/Accordion.jsx: a header button
    that opens and closes a content region, with ARIA attributes tying the two
    together through an id derived from the title. */
module Accordion {
  import opened Js

  /** The characters `\s` matches at the head of `s`, dropped. */
  function DropSpaces(s: string): (r: string)
    ensures |r| <= |s| && r == s[|s| - |r|..]
    ensures r == [] || !IsSpace(r[0])
    ensures forall i :: 0 <= i < |s| - |r| ==> IsSpace(s[i])
  {
    if s != [] && IsSpace(s[0]) then DropSpaces(s[1..]) else s
  }

  /** `title.replace(/\s+/g, '-')`: every maximal run of whitespace becomes one `-`. */
  function Slug(title: string): (r: string)
    ensures |r| <= |title|
    ensures forall i :: 0 <= i < |r| ==> !IsSpace(r[i])
    decreases |title|
  {
    if title == [] then []
    else if IsSpace(title[0]) then "-" + Slug(DropSpaces(title))
    else [title[0]] + Slug(title[1..])
  }

  /** A title without whitespace is its own slug. */
  lemma {:induction false} SlugNoSpace(title: string)
    requires forall i :: 0 <= i < |title| ==> !IsSpace(title[i])
    ensures Slug(title) == title
  {
    if title != [] {
      SlugNoSpace(title[1..]);
    }
  }

  /** Slugging is idempotent: a slug contains no whitespace left to replace. */
  lemma SlugIdempotent(title: string)
    ensures Slug(Slug(title)) == Slug(title)
  {
    SlugNoSpace(Slug(title));
  }

  lemma {:induction false} DropSpacesRun(run: string, rest: string)
    requires forall i :: 0 <= i < |run| ==> IsSpace(run[i])
    requires rest == [] || !IsSpace(rest[0])
    ensures DropSpaces(run + rest) == rest
  {
    if run != [] {
      assert (run + rest)[1..] == run[1..] + rest;
      DropSpacesRun(run[1..], rest);
    }
  }

  /** A whitespace run of any length in front of a word becomes a single `-`. */
  lemma SlugRun(run: string, rest: string)
    requires |run| > 0 && forall i :: 0 <= i < |run| ==> IsSpace(run[i])
    requires rest == [] || !IsSpace(rest[0])
    ensures Slug(run + rest) == "-" + Slug(rest)
  {
    DropSpacesRun(run, rest);
    assert (run + rest)[0] == run[0];
  }

  const ContentPrefix: string := "accordion-content-"
  const HeaderPrefix: string := "accordion-header-"

  class AccordionItem {
    const title: string
    var isOpen: bool

    /** `isOpenInitially` defaults to false when it is not passed. */
    constructor (title: string, isOpenInitially: Option<bool>)
      ensures this.title == title && isOpen == Default(isOpenInitially, false)
    {
      this.title := title;
      isOpen := Default(isOpenInitially, false);
    }

    /** A click on the header. */
    method Toggle()
      modifies this
      ensures isOpen == !old(isOpen)
    {
      isOpen := !isOpen;
    }

    /** The id of the content region. */
    function ContentId(): (r: string)
      reads this
    {
      ContentPrefix + Slug(title)
    }

    /** The header's `aria-controls`. */
    function AriaControls(): (r: string)
      reads this
    {
      ContentPrefix + Slug(title)
    }

    function AriaExpanded(): (r: bool)
      reads this
    {
      isOpen
    }

    function HeaderClass(): (r: string)
      reads this
    {
      "accordion-header " + (if isOpen then "open" else "")
    }

    function IconClass(): (r: string)
      reads this
    {
      "accordion-icon " + (if isOpen then "rotate" else "")
    }

    /** The content's `maxHeight` in pixels, as the effect sets it from the measured height. */
    function MaxHeightPx(scrollHeight: nat): (r: nat)
      reads this
    {
      if isOpen then scrollHeight else 0
    }

    /** The region's `aria-labelledby`, as written: an id no element carries. */
    function AriaLabelledBy(): (r: string)
      reads this
    {
      HeaderPrefix + Slug(title)
    }

    /** The ids the component gives its elements, as written: only the content region's. */
    function RenderedIds(): (r: seq<string>)
      reads this
    {
      [ContentId()]
    }

    /** The ids with the header button given the id the region names as its label. */
    function RenderedIdsLabelled(): (r: seq<string>)
      reads this
    {
      [HeaderPrefix + Slug(title), ContentId()]
    }
  }

  /** The header controls the region the component renders, and the region's id
      carries no whitespace. */
  lemma ControlsTheRegion(a: AccordionItem)
    ensures a.AriaControls() == a.ContentId() && a.AriaControls() in a.RenderedIds()
    ensures StartsWith(a.ContentId(), ContentPrefix) && a.ContentId()[|ContentPrefix|..] == Slug(a.title)
    ensures forall i :: 0 <= i < |a.ContentId()| ==> !IsSpace(a.ContentId()[i])
  {
    var id := a.ContentId();
    forall i | 0 <= i < |id|
      ensures !IsSpace(id[i])
    {
      if i >= |ContentPrefix| {
        assert id[i] == Slug(a.title)[i - |ContentPrefix|];
      }
    }
  }

  /** `aria-expanded`, the `open` class, the `rotate` class and a non-zero height all say the same thing. */
  lemma AttributesTrackOpen(a: AccordionItem, scrollHeight: nat)
    ensures a.AriaExpanded() <==> a.isOpen
    ensures a.HeaderClass() == "accordion-header open" <==> a.isOpen
    ensures a.IconClass() == "accordion-icon rotate" <==> a.isOpen
    ensures !a.isOpen ==> a.MaxHeightPx(scrollHeight) == 0
    ensures a.isOpen ==> a.MaxHeightPx(scrollHeight) == scrollHeight
  {
    if !a.isOpen {
      assert |a.HeaderClass()| != |"accordion-header open"|;
      assert |a.IconClass()| != |"accordion-icon rotate"|;
    }
  }

  /** As written, the region's label reference resolves to no rendered element. */
  lemma LabelledByDangles(a: AccordionItem)
    ensures a.AriaLabelledBy() !in a.RenderedIds()
  {
    assert HeaderPrefix[10] == 'h' && ContentPrefix[10] == 'c';
    assert a.AriaLabelledBy()[10] == 'h' && a.ContentId()[10] == 'c';
  }

  /** With the header given its id, the label reference resolves to the header, and
      the two ids differ. */
  lemma LabelledByResolves(a: AccordionItem)
    ensures a.AriaLabelledBy() == a.RenderedIdsLabelled()[0]
    ensures a.RenderedIdsLabelled()[0] != a.RenderedIdsLabelled()[1]
    ensures a.AriaControls() == a.RenderedIdsLabelled()[1]
  {
    assert HeaderPrefix[10] == 'h' && ContentPrefix[10] == 'c';
    assert a.RenderedIdsLabelled()[0][10] == 'h' && a.RenderedIdsLabelled()[1][10] == 'c';
  }
}
