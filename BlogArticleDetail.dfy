/** The article page of src/pages/BlogArticleDetail.jsx: the article whose id is
    the URL's `slug`, with a hero image, a category link and a body rendered
    block by block; a not-found view when no article has that id. */
module BlogArticleDetail {
  import opened Js
  import opened Lists
  import opened Articles
  import opened Blog

  /** `blogArticles.find(art => art.id === slug)`: the first article with that id. */
  function FindArticle(articles: seq<Article>, slug: string): (r: Option<Article>)
    ensures r.None? <==> forall i :: 0 <= i < |articles| ==> articles[i].id != slug
    ensures r.Some? ==> exists i :: (0 <= i < |articles| && r.value == articles[i] &&
      articles[i].id == slug && forall j :: 0 <= j < i ==> articles[j].id != slug)
  {
    var i := FindIndex(articles, ArticleId, slug);
    if i < 0 then None else Some(articles[i])
  }

  /** An element the body renderer produces for a block. */
  datatype Node =
    | P(text: string)
    | H2(text: string)
    | H3(text: string)
    | Figure(src: string, alt: string, caption: Option<string>)
    | Ul(items: seq<string>)
    | Highlighted(language: string, code: string)

  /** `renderContent`: `None` is the `null` rendered for a heading level other
      than 2 or 3 and for a block type the switch does not know. */
  function RenderBlock(b: Block): (r: Option<Node>)
    ensures r.None? <==> b.Other? || (b.Heading? && b.level != 2 && b.level != 3)
    ensures b.Paragraph? ==> r == Some(P(b.text))
    ensures b.Heading? && b.level == 2 ==> r == Some(H2(b.text))
    ensures b.Heading? && b.level == 3 ==> r == Some(H3(b.text))
    ensures b.Image? ==> (r.Some? && r.value.Figure? && r.value.src == b.src && r.value.alt == b.alt &&
      (r.value.caption.Some? <==> Truthy(b.caption)) && (Truthy(b.caption) ==> r.value.caption == b.caption))
    ensures b.List? ==> r == Some(Ul(b.items))
    ensures b.Code? ==> r == Some(Highlighted(b.language, b.code))
  {
    match b
    case Paragraph(text) => Some(P(text))
    case Heading(level, text) =>
      if level == 2 then Some(H2(text)) else if level == 3 then Some(H3(text)) else None
    case Image(src, alt, caption) => Some(Figure(src, alt, if Truthy(caption) then caption else None))
    case List(items) => Some(Ul(items))
    case Code(language, code) => Some(Highlighted(language, code))
    case Other(_) => None
  }

  /** The article body as rendered: one entry per block, or the raw HTML of a string body. */
  datatype Body = Rendered(nodes: seq<Option<Node>>) | RawHtml(html: string)

  datatype View =
    | NotFound(backLink: string)
    | ArticleView(heroSrc: string, heroAlt: string, title: string, categoryLink: string,
                  tags: seq<string>, body: Body, backLink: string)
    /** `article.content.map` on a string body: a `TypeError` aborts the render. */
    | ContentTypeError

  const BlogListPath: string := "/blog"
  const CategoryQuery: string := "/blog?category="

  /** `` `/blog?category=${category}` ``: the category reads back from the link. */
  function CategoryLink(category: string): (r: string)
    ensures StartsWith(r, CategoryQuery) && r[|CategoryQuery|..] == category
  {
    CategoryQuery + category
  }

  function ArticlePage(a: Article, body: Body): (r: View) {
    ArticleView(a.image, OrElse(a.altText, a.title), a.title, CategoryLink(a.category), a.tags, body, BlogListPath)
  }

  /** The page as written: a string body fails at `content.map`. */
  function RenderAsWritten(articles: seq<Article>, slug: string): (v: View)
    ensures v.NotFound? <==> FindArticle(articles, slug).None?
    ensures v.NotFound? ==> v.backLink == BlogListPath
    ensures v == ContentTypeError <==> FindArticle(articles, slug).Some? && FindArticle(articles, slug).value.content.Html?
    ensures v.ArticleView? ==> v.heroAlt == OrElse(FindArticle(articles, slug).value.altText, FindArticle(articles, slug).value.title)
    ensures v.ArticleView? ==> (v.title == FindArticle(articles, slug).value.title &&
      v.categoryLink == CategoryLink(FindArticle(articles, slug).value.category) &&
      v.heroSrc == FindArticle(articles, slug).value.image && v.tags == FindArticle(articles, slug).value.tags &&
      v.backLink == BlogListPath)
    ensures v.ArticleView? ==> (v.body.Rendered? &&
      v.body.nodes == MapSeq(FindArticle(articles, slug).value.content.blocks, RenderBlock))
  {
    match FindArticle(articles, slug)
    case None => NotFound(BlogListPath)
    case Some(a) =>
      match a.content
      case Blocks(bs) => ArticlePage(a, Rendered(MapSeq(bs, RenderBlock)))
      case Html(_) => ContentTypeError
  }

  /** The page with a string body injected as HTML, as the data file intends. */
  function RenderCorrected(articles: seq<Article>, slug: string): (v: View)
    ensures v != ContentTypeError
    ensures v.NotFound? <==> FindArticle(articles, slug).None?
    ensures RenderAsWritten(articles, slug) != ContentTypeError ==> v == RenderAsWritten(articles, slug)
    ensures v.ArticleView? && FindArticle(articles, slug).value.content.Html? ==>
      v.body == RawHtml(FindArticle(articles, slug).value.content.html)
  {
    match FindArticle(articles, slug)
    case None => NotFound(BlogListPath)
    case Some(a) =>
      match a.content
      case Blocks(bs) => ArticlePage(a, Rendered(MapSeq(bs, RenderBlock)))
      case Html(html) => ArticlePage(a, RawHtml(html))
  }

  /** With distinct ids, the id the blog list puts in a card's link finds that card's article. */
  lemma BlogLinkFindsArticle(articles: seq<Article>, i: nat)
    requires i < |articles|
    requires forall p, q :: 0 <= p < q < |articles| ==> articles[p].id != articles[q].id
    ensures FindArticle(articles, DetailLink(articles[i])[|BlogPrefix|..]) == Some(articles[i])
  {
    var slug := DetailLink(articles[i])[|BlogPrefix|..];
    var r := FindArticle(articles, slug);
    assert articles[i].id == slug;
    var k :| 0 <= k < |articles| && r.value == articles[k] && articles[k].id == slug &&
      forall j :: 0 <= j < k ==> articles[j].id != slug;
  }

  /** Every article of the data file holds its body as an HTML string, so, as
      written, every id that finds an article fails to render, and the corrected
      page shows it. */
  lemma SiteArticlesFailAsWritten(slug: string)
    requires FindArticle(BlogArticles(), slug).Some?
    ensures RenderAsWritten(BlogArticles(), slug) == ContentTypeError
    ensures RenderCorrected(BlogArticles(), slug).ArticleView?
  {
    var xs := BlogArticles();
    assert forall i :: 0 <= i < |xs| ==> xs[i].content.Html?;
  }

  /** A heading of level 1 or 4 renders nothing; the hero alt falls back to the title. */
  lemma UnsupportedHeadingAndAlt(a: Article)
    requires a.content == Blocks([Heading(4, "x"), Paragraph("y")]) && a.altText == Some("")
    ensures RenderAsWritten([a], a.id) ==
      ArticleView(a.image, a.title, a.title, CategoryLink(a.category), a.tags, Rendered([None, Some(P("y"))]), BlogListPath)
  {
    assert FindArticle([a], a.id) == Some(a);
    assert MapSeq([Heading(4, "x"), Paragraph("y")], RenderBlock) == [None, Some(P("y"))];
  }
}
