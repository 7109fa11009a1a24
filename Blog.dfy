/** The blog list page of src/pages/Blog.jsx: category filter buttons over a
    staggered grid of article cards, each linking to the article's detail page. */
module Blog {
  import opened Js
  import opened Lists
  import opened Articles

  const BlogPrefix: string := "/blog/"
  const NoArticlesMessage: string := "No articles found for this category."

  /** The card's details link, `/blog/` followed by the article id; the id reads back from it. */
  function DetailLink(a: Article): (r: string)
    ensures StartsWith(r, BlogPrefix) && r[|BlogPrefix|..] == a.id
  {
    BlogPrefix + a.id
  }

  /** The card an article is shown with: internal details link and animation delay. */
  datatype ArticleCard = ArticleCard(article: Article, detailsLink: string, isInternalLink: bool, aosDelay: nat)

  /** The articles grid of a filtered list: a card per article in list order, or the message. */
  function ArticleGrid(articles: seq<Article>): (r: Section<ArticleCard>)
    ensures r.Grid? <==> |articles| > 0
    ensures r.EmptyMessage? ==> r.text == NoArticlesMessage
    ensures r.Grid? ==> |r.items| == |articles| && forall i :: 0 <= i < |articles| ==>
      r.items[i].article == articles[i] && r.items[i].isInternalLink &&
      StartsWith(r.items[i].detailsLink, BlogPrefix) && r.items[i].detailsLink[|BlogPrefix|..] == articles[i].id &&
      (r.items[i].aosDelay == 0 || r.items[i].aosDelay == 100 || r.items[i].aosDelay == 200)
  {
    GridOrMessage(seq(|articles|, i requires 0 <= i < |articles| =>
                    ArticleCard(articles[i], DetailLink(articles[i]), true, StaggerDelay(i))),
                  NoArticlesMessage)
  }

  /** The page's state: the chosen filter and the list shown. */
  class BlogPage {
    const articles: seq<Article>
    const categories: seq<string>
    var filter: string
    var filteredArticles: seq<Article>

    /** First render over the article list: filter `'All'`, every article shown. */
    constructor (articles: seq<Article>)
      ensures this.articles == articles
      ensures categories == FilterOptions(articles, ArticleCategory)
      ensures filter == All && filteredArticles == articles
    {
      this.articles := articles;
      categories := FilterOptions(articles, ArticleCategory);
      filter := All;
      filteredArticles := articles;
    }

    /** A filter button's click and the effect it triggers. */
    method SelectFilter(cat: string)
      modifies this
      ensures filter == cat
      ensures filteredArticles == ApplyFilter(articles, ArticleCategory, cat)
    {
      filter := cat;
      if filter == All {
        filteredArticles := articles;
      } else {
        filteredArticles := FilterBy(articles, ArticleCategory, filter);
      }
    }

    function Grid(): (r: Section<ArticleCard>)
      reads this
    {
      ArticleGrid(filteredArticles)
    }
  }

  /** Every offered category button leads to a grid, never to the empty message. */
  lemma OfferedCategoryShowsArticles(articles: seq<Article>, cat: string)
    requires cat in FilterOptions(articles, ArticleCategory) && cat != All
    ensures ArticleGrid(ApplyFilter(articles, ArticleCategory, cat)).Grid?
  {
    OfferedFilterNonEmpty(articles, ArticleCategory, cat);
  }
}
