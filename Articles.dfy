/** The blog article records of src/data/blogArticles.js, shared by the home
    page teaser, the blog list and the article detail page. */
module Articles {
  import opened Js

  /** A structured body block, as the detail page's renderer expects them;
      `Other` is a block whose `type` the renderer does not know. */
  datatype Block =
    | Paragraph(text: string)
    | Heading(level: int, text: string)
    | Image(src: string, alt: string, caption: Option<string>)
    | List(items: seq<string>)
    | Code(language: string, code: string)
    | Other(kind: string)

  /** An article body: an array of blocks, or a string of HTML (what the data file holds). */
  datatype Content = Blocks(blocks: seq<Block>) | Html(html: string)

  /** A publication date `'YYYY-MM-DD'` is kept as the number `YYYYMMDD`, which
      orders dates as `new Date` does. */
  datatype Article = Article(
    id: string, slug: string, title: string, snippet: string, content: Content,
    image: string, altText: Option<string>, category: string, tags: seq<string>,
    date: int, author: string)

  /** A record of the data file with the fields this model reasons about; the body
      keeps only its opening heading and the snippet is left empty. */
  function Entry(id: string, slug: string, title: string, opening: string, image: string,
                 category: string, tags: seq<string>, date: int): (r: Article)
  {
    Article(id, slug, title, "", Html("<h2>" + opening + "</h2>"), image, None, category, tags,
            date, "Mazi Chukwuka")
  }

  /** The five articles of the data file, in file order. */
  function BlogArticles(): (r: seq<Article>) {
    [ Entry("1", "5-common-mistakes-business-financial-reports",
            "5 Common Mistakes in Business Financial Reports (And How to Avoid Them)",
            "Introduction: The Importance of Accurate Financial Reports",
            "/assets/blog/financial-reports.jpg", "Accounting",
            ["financial reporting", "accounting", "business finance", "auditing", "mistakes"], 20250720),
      Entry("2", "beginners-guide-excel-data-analysis",
            "Beginner\U{2019}s Guide to Excel for Data Analysis: From Raw Data to Insights",
            "Introduction: Why Excel is Still Relevant for Data Analysis",
            "/assets/blog/excel-data-analysis.jpg", "Data Analysis",
            ["excel", "data analysis", "spreadsheet", "beginners", "tutorials"], 20250715),
      Entry("3", "how-i-built-first-web-app-gomatrix",
            "How I Built My First Web App for GoMatrix Academy (A Technical Journey)",
            "Introduction: The Genesis of GoMatrix App",
            "/assets/blog/gomatrix-webapp.jpg", "Web Development",
            ["web app", "react", "node.js", "javascript", "goMatrix", "development process"], 20250710),
      Entry("4", "what-it-means-certified-forensic-auditor",
            "Beyond the Numbers: What It Means to Be a Certified Forensic Auditor",
            "Introduction: The Evolving Landscape of Financial Crime",
            "/assets/blog/forensic-auditor.jpg", "Accounting",
            ["forensic auditing", "fraud", "investigation", "accounting career", "compliance"], 20250705),
      Entry("5", "data-driven-decision-making-smes",
            "Data-Driven Decision Making for SMEs: A Practical Guide",
            "Introduction: Why Data is No Longer Just for Big Corporations",
            "/assets/blog/sme-data.jpg", "Data Analysis",
            ["sme", "business strategy", "data analytics", "decision making", "small business"], 20250628) ]
  }

  function ArticleId(a: Article): string { a.id }
  function ArticleCategory(a: Article): string { a.category }
}
