/** The home page of src/pages/Home.jsx: the three latest blog articles (taken
    after sorting the shared article array in place), the rounded skill average,
    the download-CV dropdown, the first name in the about heading and the social
    icons of the links that are set. */
module Home {
  import opened Js
  import opened Lists
  import opened Articles
  import opened Blog
  import opened BlogArticleDetail

  /** Newest first: no article is followed by a newer one. */
  predicate NewestFirst(s: seq<Article>) {
    forall p, q :: 0 <= p < q < |s| ==> s[p].date >= s[q].date
  }

  /** The first `n` entries are newest first, except that the one at `j` may be
      newer than those before it. */
  predicate NewestFirstExcept(s: seq<Article>, n: int, j: int) {
    forall p, q :: 0 <= p < q < n && q < |s| && q != j ==> s[p].date >= s[q].date
  }

  /** Exchanges the neighbours at `j - 1` and `j`. */
  method SwapDown(a: array<Article>, j: int)
    requires 0 < j < a.Length
    modifies a
    ensures a[..] == old(a[..])[j - 1 := old(a[j])][j := old(a[j - 1])]
    ensures multiset(a[..]) == multiset(old(a[..]))
  {
    a[j - 1], a[j] := a[j], a[j - 1];
  }

  /** Moving the entry at `j` one place down, past an older neighbour, keeps the
      prefix ordered except at the entry's new place. */
  lemma SwapKeepsOrder(s: seq<Article>, n: int, j: int)
    requires 0 < j < n <= |s|
    requires NewestFirstExcept(s, n, j) && s[j - 1].date < s[j].date
    ensures NewestFirstExcept(s[j - 1 := s[j]][j := s[j - 1]], n, j - 1)
  {
  }

  /** `blogArticles.sort((a, b) => new Date(b.date) - new Date(a.date))`: the shared
      array is reordered in place, newest first, keeping exactly its articles. */
  method SortNewestFirst(a: array<Article>)
    modifies a
    ensures NewestFirst(a[..])
    ensures multiset(a[..]) == multiset(old(a[..]))
  {
    if a.Length == 0 {
      return;
    }
    var i := 1;
    while i < a.Length
      invariant 1 <= i <= a.Length
      invariant NewestFirst(a[..i])
      invariant multiset(a[..]) == multiset(old(a[..]))
    {
      var j := i;
      while j > 0 && a[j - 1].date < a[j].date
        invariant 0 <= j <= i < a.Length
        invariant NewestFirstExcept(a[..], i + 1, j)
        invariant multiset(a[..]) == multiset(old(a[..]))
      {
        SwapKeepsOrder(a[..], i + 1, j);
        SwapDown(a, j);
        j := j - 1;
      }
      i := i + 1;
    }
    assert a[..i] == a[..];
  }

  /** How many articles the teaser shows: three, or all when there are fewer. */
  function TeaserCount(n: nat): (r: nat) {
    if n < 3 then n else 3
  }

  /** `useMemo(() => blogArticles.sort(...).slice(0, 3))`: sorts the shared array
      and returns its first three entries. */
  method LatestArticles(a: array<Article>) returns (latest: seq<Article>)
    modifies a
    ensures NewestFirst(a[..]) && multiset(a[..]) == multiset(old(a[..]))
    ensures |latest| == TeaserCount(a.Length) && latest == a[..|latest|]
    ensures NewestFirst(latest)
    ensures forall k, m :: |latest| <= k < a.Length && 0 <= m < |latest| ==> a[k].date <= latest[m].date
  {
    SortNewestFirst(a);
    latest := a[..TeaserCount(a.Length)];
  }

  function ArticleDate(x: Article): int { x.date }

  /** The dates of an article list, in list order. */
  function Dates(s: seq<Article>): (r: seq<int>)
    ensures |r| == |s| && forall i :: 0 <= i < |s| ==> r[i] == s[i].date
  {
    MapSeq(s, ArticleDate)
  }

  /** A list with its `k`-th entry removed. */
  function Without(t: seq<Article>, k: nat): (r: seq<Article>)
    requires k < |t|
    ensures |r| == |t| - 1
    ensures forall i :: 0 <= i < k ==> r[i] == t[i]
    ensures forall i :: k <= i < |r| ==> r[i] == t[i + 1]
  {
    t[..k] + t[k + 1..]
  }

  lemma WithoutMultiset(t: seq<Article>, k: nat)
    requires k < |t|
    ensures multiset(Without(t, k)) == multiset(t) - multiset{t[k]}
  {
    assert t == t[..k] + [t[k]] + t[k + 1..];
  }

  lemma WithoutNewestFirst(t: seq<Article>, k: nat)
    requires k < |t| && NewestFirst(t)
    ensures NewestFirst(Without(t, k))
  {
    var r := Without(t, k);
    forall p, q | 0 <= p < q < |r|
      ensures r[p].date >= r[q].date
    {
      var p' := if p < k then p else p + 1;
      var q' := if q < k then q else q + 1;
      assert r[p] == t[p'] && r[q] == t[q'];
    }
  }

  /** Removing an entry that shares the first date leaves the dates after the first unchanged. */
  lemma WithoutTopDate(t: seq<Article>, k: nat)
    requires k < |t| && NewestFirst(t) && t[k].date == t[0].date
    ensures Dates(t) == [t[0].date] + Dates(Without(t, k))
  {
    var r := Without(t, k);
    forall i | 1 <= i < |t|
      ensures t[i].date == Dates(r)[i - 1]
    {
      if i <= k {
        assert r[i - 1] == t[i - 1];
        assert t[0].date >= t[i - 1].date >= t[i].date >= t[k].date;
      } else {
        assert r[i - 1] == t[i];
      }
    }
  }

  /** The first article of one newest-first ordering sits in the other at a place
      sharing that ordering's first date. */
  lemma HeadMatch(s: seq<Article>, t: seq<Article>) returns (k: nat)
    requires multiset(s) == multiset(t) && |s| > 0
    requires NewestFirst(s) && NewestFirst(t)
    ensures k < |t| && t[k] == s[0] && t[k].date == t[0].date
  {
    assert s[0] in multiset(t);
    k :| 0 <= k < |t| && t[k] == s[0];
    assert t[0] in multiset(s);
    var m :| 0 <= m < |s| && s[m] == t[0];
    assert s[0].date >= s[m].date && t[0].date >= t[k].date;
  }

  /** Two newest-first orderings of the same articles carry the same dates in the
      same places: whichever way ties are broken, the teaser shows the same dates. */
  lemma {:induction false} NewestFirstDatesUnique(s: seq<Article>, t: seq<Article>)
    requires multiset(s) == multiset(t)
    requires NewestFirst(s) && NewestFirst(t)
    ensures Dates(s) == Dates(t)
    decreases |s|
  {
    if |s| == 0 {
      assert |t| == |multiset(t)| == 0;
    } else {
      var k := HeadMatch(s, t);
      WithoutMultiset(s, 0);
      WithoutMultiset(t, k);
      WithoutNewestFirst(s, 0);
      WithoutNewestFirst(t, k);
      NewestFirstDatesUnique(Without(s, 0), Without(t, k));
      WithoutTopDate(s, 0);
      WithoutTopDate(t, k);
    }
  }

  /** The sum of the skill percentages. */
  function Sum(ps: seq<int>): (r: int) {
    if ps == [] then 0 else ps[0] + Sum(ps[1..])
  }

  lemma {:induction false} SumBounds(ps: seq<int>, lo: int, hi: int)
    requires forall i :: 0 <= i < |ps| ==> lo <= ps[i] <= hi
    ensures lo * |ps| <= Sum(ps) <= hi * |ps|
  {
    if ps != [] {
      SumBounds(ps[1..], lo, hi);
    }
  }

  /** `Math.round(sum / n)` for `n` skills: `None` is the `NaN` of an empty list.
      The result is the integer nearest the mean, halves rounding up. */
  function RoundedAverage(ps: seq<int>): (r: Option<int>)
    ensures r.None? <==> |ps| == 0
    ensures r.Some? ==> 2 * |ps| * r.value - |ps| <= 2 * Sum(ps) < 2 * |ps| * r.value + |ps|
  {
    if |ps| == 0 then None
    else
      var n := |ps|;
      var q := (2 * Sum(ps) + n) / (2 * n);
      assert 2 * n * q <= 2 * Sum(ps) + n < 2 * n * q + 2 * n;
      Some(q)
  }

  lemma MulMonotone(n: int, x: int, y: int)
    requires n > 0 && x <= y
    ensures n * x <= n * y
  {
    assert n * y - n * x == n * (y - x);
  }

  /** `n * a < n * (b + 1)` with `n` positive gives `a <= b`. */
  lemma MulLessCancel(n: int, a: int, b: int)
    requires n > 0 && n * a < n * (b + 1)
    ensures a <= b
  {
    if a > b {
      MulMonotone(n, b + 1, a);
    }
  }

  /** The mean of percentages between 0 and 100 rounds to a percentage between 0 and 100. */
  lemma AverageIsPercentage(ps: seq<int>)
    requires |ps| > 0 && forall i :: 0 <= i < |ps| ==> 0 <= ps[i] <= 100
    ensures 0 <= RoundedAverage(ps).value <= 100
  {
    SumBounds(ps, 0, 100);
    var n := |ps|;
    var r := RoundedAverage(ps).value;
    assert 2 * n * r - n <= 2 * Sum(ps) < 2 * n * r + n;
    assert (2 * n) * r < (2 * n) * (100 + 1);
    MulLessCancel(2 * n, r, 100);
    assert (2 * n) * -1 < (2 * n) * (r - 1 + 1);
    MulLessCancel(2 * n, -1, r - 1);
  }

  /** The site's six skills average 85.5, shown as 86. */
  lemma SiteSkillAverage()
    ensures RoundedAverage([90, 95, 80, 85, 75, 88]) == Some(86)
  {
    assert Sum([90, 95, 80, 85, 75, 88]) == 513;
  }

  /** `name.split(' ')[0]`: the text before the first space, or all of it. */
  function FirstName(name: string): (r: string)
    ensures |r| <= |name| && r == name[..|r|]
    ensures forall i :: 0 <= i < |r| ==> r[i] != ' '
    ensures |r| < |name| ==> name[|r|] == ' '
  {
    if name == [] || name[0] == ' ' then []
    else [name[0]] + FirstName(name[1..])
  }

  /** The first name is unique: any space-free prefix followed by a space or the end is it. */
  lemma {:induction false} FirstNameUnique(name: string, w: string)
    requires |w| <= |name| && w == name[..|w|]
    requires forall i :: 0 <= i < |w| ==> w[i] != ' '
    requires |w| < |name| ==> name[|w|] == ' '
    ensures FirstName(name) == w
    decreases |name|
  {
    if name != [] && name[0] != ' ' {
      assert w != [];
      FirstNameUnique(name[1..], w[1..]);
    }
  }

  lemma SiteFirstName()
    ensures FirstName("Mazi Chukwuka") == "Mazi"
  {
    FirstNameUnique("Mazi Chukwuka", "Mazi");
  }

  /** A social profile of the contact data: its network and its link, if set. */
  datatype Social = Social(network: string, link: Option<string>)

  function HasLink(x: Social): bool { Truthy(x.link) }

  /** The hero's social icons: one per profile whose link is truthy, in order. */
  function SocialIcons(links: seq<Social>): (r: seq<Social>) {
    FilterBy(links, HasLink, true)
  }

  /** An icon is shown for exactly the profiles with a link, and only for them. */
  lemma SocialIconsSpec(links: seq<Social>)
    ensures forall j :: 0 <= j < |SocialIcons(links)| ==> Truthy(SocialIcons(links)[j].link)
    ensures forall i :: 0 <= i < |links| && Truthy(links[i].link) ==> links[i] in SocialIcons(links)
    ensures IsSubseq(SocialIcons(links), links)
    ensures |SocialIcons(links)| == CountKey(links, HasLink, true)
  {
    FilterBySpec(links, HasLink, true);
  }

  /** The CV paths of the personal data; only `full` is set on the site. */
  datatype Cvs = Cvs(full: Option<string>, accountant: Option<string>,
                     webDeveloper: Option<string>, dataAnalyst: Option<string>)

  /** The dropdown's four entries: label and `href` (`None` renders an anchor without a target). */
  function CvMenu(cvs: Cvs): (r: seq<(string, Option<string>)>) {
    [("Full CV", cvs.full), ("Accountant CV", cvs.accountant),
     ("Web Developer CV", cvs.webDeveloper), ("Data Analyst CV", cvs.dataAnalyst)]
  }

  /** With only the full CV set, three of the four entries lead nowhere. */
  lemma SiteCvMenu(full: string)
    ensures |CvMenu(Cvs(Some(full), None, None, None))| == 4
    ensures forall i :: 1 <= i < 4 ==> CvMenu(Cvs(Some(full), None, None, None))[i].1.None?
    ensures CvMenu(Cvs(Some(full), None, None, None))[0].1 == Some(full)
  {
  }

  /** The page's state: the loading screen flag, the CV dropdown flag and the teaser articles. */
  class HomePage {
    var isLoading: bool
    var isCvDropdownOpen: bool
    const latest: seq<Article>

    /** First render: the loading screen, the dropdown closed, and the teaser
        list computed (which sorts the shared array). */
    constructor (articles: array<Article>)
      modifies articles
      ensures isLoading && !isCvDropdownOpen
      ensures NewestFirst(articles[..]) && multiset(articles[..]) == multiset(old(articles[..]))
      ensures latest == articles[..TeaserCount(articles.Length)]
    {
      var l := LatestArticles(articles);
      latest := l;
      isLoading := true;
      isCvDropdownOpen := false;
    }

    /** The 500 ms timer ends the loading screen. */
    method TimerFired()
      modifies this
      ensures !isLoading && isCvDropdownOpen == old(isCvDropdownOpen)
    {
      isLoading := false;
    }

    method CvButtonClick()
      modifies this
      ensures isCvDropdownOpen == !old(isCvDropdownOpen) && isLoading == old(isLoading)
    {
      isCvDropdownOpen := !isCvDropdownOpen;
    }

    method CvItemClick()
      modifies this
      ensures !isCvDropdownOpen && isLoading == old(isLoading)
    {
      isCvDropdownOpen := false;
    }
  }

  /** The teaser's "Read Full Article" link, as written: `/blog/` and the slug. */
  function TeaserLinkAsWritten(a: Article): (r: string) {
    BlogPrefix + a.slug
  }

  /** The teaser's link with the id the article page looks up. */
  function TeaserLink(a: Article): (r: string) {
    DetailLink(a)
  }

  /** The segment after `/blog/` of a teaser link, which the article page takes as `slug`. */
  function SlugOf(link: string): (r: string)
    requires StartsWith(link, BlogPrefix)
  {
    link[|BlogPrefix|..]
  }

  /** As written, no teaser link of the site's articles finds an article: the page
      looks the segment up among ids, and every slug differs from every id. */
  lemma TeaserLinksNotFound(a: Article)
    requires a in BlogArticles()
    ensures FindArticle(BlogArticles(), SlugOf(TeaserLinkAsWritten(a))).None?
  {
    var xs := BlogArticles();
    assert |SlugOf(TeaserLinkAsWritten(a))| == |a.slug|;
    assert forall i :: 0 <= i < |xs| ==> |xs[i].id| == 1 && |xs[i].slug| > 1;
  }

  /** With the id in the link, every teaser finds its own article. */
  lemma TeaserLinksFound(a: Article)
    requires a in BlogArticles()
    ensures FindArticle(BlogArticles(), SlugOf(TeaserLink(a))) == Some(a)
  {
    var xs := BlogArticles();
    var i :| 0 <= i < |xs| && xs[i] == a;
    assert forall p, q :: 0 <= p < q < |xs| ==> xs[p].id != xs[q].id;
    BlogLinkFindsArticle(xs, i);
  }
}
