/** The resources page of src/pages/Resources.jsx: a card per resource with an
    icon chosen from its type, and an explore link when it has one. As written
    the page reads a `resources` list the personal data does not have, and uses
    an arrow icon it never imports. */
module Resources {
  import opened Js
  import opened Lists

  datatype Icon = BookIcon | ToolsIcon | GraduationCapIcon | LinkIcon | LightbulbIcon

  /** `getResourceIcon(type)`: chosen from the lower-cased type. */
  function ResourceIcon(kind: string): (r: Icon)
    ensures r == BookIcon <==> ToLower(kind) == "book"
    ensures r == ToolsIcon <==> ToLower(kind) == "tool"
    ensures r == GraduationCapIcon <==> ToLower(kind) == "course"
    ensures r == LinkIcon <==> ToLower(kind) == "article" || ToLower(kind) == "website"
  {
    var k := ToLower(kind);
    if k == "book" then BookIcon
    else if k == "tool" then ToolsIcon
    else if k == "course" then GraduationCapIcon
    else if k == "article" || k == "website" then LinkIcon
    else LightbulbIcon
  }

  /** The icon ignores letter case: a type and its lower-cased form get the same icon. */
  lemma IconIgnoresCase(kind: string)
    ensures ResourceIcon(ToLower(kind)) == ResourceIcon(kind)
  {
    ToLowerIdempotent(kind);
  }

  /** Any type outside the five known ones gets the light bulb. */
  lemma UnknownTypeIsLightbulb(kind: string)
    requires ToLower(kind) !in ["book", "tool", "course", "article", "website"]
    ensures ResourceIcon(kind) == LightbulbIcon
  {
  }

  datatype Resource = Resource(kind: string, title: string, category: string, description: string, link: Option<string>)

  /** A resource card: its icon, the resource, its explore link if any, and its delay. */
  datatype Card = Card(icon: Icon, resource: Resource, exploreLink: Option<string>, aosDelay: nat)

  const NoResourcesMessage: string := "No resources added yet. Check back soon!"

  /** What rendering produces: the section, or the error that aborts it. */
  datatype Page = Rendered(section: Section<Card>) | TypeError | ReferenceError

  function ResourceCard(res: Resource, index: nat): (c: Card)
    ensures c.icon == ResourceIcon(res.kind) && c.resource == res
    ensures c.exploreLink.Some? <==> Truthy(res.link)
    ensures c.exploreLink.Some? ==> c.exploreLink == res.link
    ensures c.aosDelay == 0 || c.aosDelay == 100 || c.aosDelay == 200
  {
    Card(ResourceIcon(res.kind), res, if Truthy(res.link) then res.link else None, StaggerDelay(index))
  }

  function ResourceSection(rs: seq<Resource>): (r: Section<Card>)
    ensures r.Grid? <==> |rs| > 0
    ensures r.EmptyMessage? ==> r.text == NoResourcesMessage
    ensures r.Grid? ==> |r.items| == |rs| && forall i :: 0 <= i < |rs| ==> r.items[i] == ResourceCard(rs[i], i)
  {
    GridOrMessage(seq(|rs|, i requires 0 <= i < |rs| => ResourceCard(rs[i], i)), NoResourcesMessage)
  }

  /** The page as written: `resources.length` on a missing list is a `TypeError`,
      and a card with a link evaluates the unimported `FaArrowRight`. */
  function RenderAsWritten(resources: Option<seq<Resource>>): (p: Page)
    ensures resources.None? ==> p == TypeError
    ensures resources.Some? && (exists i :: 0 <= i < |resources.value| && Truthy(resources.value[i].link)) ==>
      p == ReferenceError
    ensures resources.Some? && (forall i :: 0 <= i < |resources.value| ==> !Truthy(resources.value[i].link)) ==>
      p == Rendered(ResourceSection(resources.value))
    ensures p.Rendered? ==> resources.Some? && p.section == ResourceSection(resources.value)
  {
    match resources
    case None => TypeError
    case Some(rs) =>
      if exists i :: 0 <= i < |rs| && Truthy(rs[i].link) then ReferenceError
      else Rendered(ResourceSection(rs))
  }

  /** The page with the list defaulting to empty and the arrow icon imported: it
      always renders, showing the message when there is nothing to list. */
  function RenderCorrected(resources: Option<seq<Resource>>): (p: Page)
    ensures p.Rendered?
    ensures resources.None? ==> p.section == EmptyMessage(NoResourcesMessage)
    ensures resources.Some? ==> p.section == ResourceSection(resources.value)
  {
    Rendered(ResourceSection(Default(resources, [])))
  }

  /** The personal data has no `resources` key, so the page as written fails to render. */
  lemma SiteDataFailsToRender()
    ensures RenderAsWritten(None) == TypeError
    ensures RenderCorrected(None) == Rendered(EmptyMessage(NoResourcesMessage))
  {
  }

  /** Wherever the page as written renders, the corrected page renders the same thing. */
  lemma CorrectedAgreesWhereItRendered(resources: Option<seq<Resource>>)
    requires RenderAsWritten(resources).Rendered?
    ensures RenderCorrected(resources) == RenderAsWritten(resources)
  {
  }

  /** A list holding one linked resource still fails as written, but renders its explore link corrected. */
  lemma LinkedResourceFails(res: Resource)
    requires Truthy(res.link)
    ensures RenderAsWritten(Some([res])) == ReferenceError
    ensures RenderCorrected(Some([res])).section.items[0].exploreLink == res.link
  {
    assert Truthy([res][0].link);
  }
}
