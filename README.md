# Portfolio site — a Dafny model of its page logic

This project models the client-side logic of a React portfolio site: the
personal pages, the project portfolio, the blog and its article pages, the
resources list, the FAQ and the contact form. It proves properties of that
logic. The model covers:

- **App shell.** The shell keeps the colour theme in local storage, the mobile
  slide-out flag and the desktop collapse flag. Its effects lock page scrolling,
  handle Escape and the Ctrl/Cmd+Shift+T shortcut, close the slide-out on a
  resize to desktop width, and write `data-theme` and the body class.
- **Theme storage.** The `useLocalStorage` hook reads and writes the theme with
  `JSON.stringify` / `JSON.parse`, and falls back to `'dark'` when reading fails.
- **Navigation.** The sidebar has its route, Escape, link-click, CV-dropdown and
  outside-click behaviour. The top bar has a menu and a roles dropdown.
- **Reusable components.** The `Button` picks between an anchor, a router link
  and a `<button>`. The `Accordion` builds its element ids from a slug.
- **Pages.**
  - Home: the three newest blog articles, the rounded skill average, the first
    name, the social icons and the CV dropdown.
  - Portfolio: concatenation, de-duplication by id, category filter, staggered grid.
  - Blog: category filter and article cards.
  - Blog article: lookup by id, block renderer, fallbacks.
  - Resources: icons and cards.
  - FAQ: at most one answer open.
  - Contact: form state and submit.

Modules follow the program: `Js` holds the JavaScript value rules (truthiness,
`||` against destructuring defaults, `toLowerCase`, `\s`). `Lists` holds the
list operations the pages share (map, find, de-duplicate, filter, the filter
button row, the stagger delay). `ThemeStore` holds the hook. `Articles` holds
the article records and the site's five articles. Then there is one module per
component or page. Components whose state React keeps between renders are
classes: `Shell`, `SidebarView`, `NavbarView`, `PortfolioPage`, `BlogPage`,
`FaqPage`, `AccordionItem`, `ContactPage` and `HomePage`. Their handlers are
methods with `modifies this`. Rendering is done by functions of that state.

React's effect rule is stated explicitly: an effect re-runs after a commit when
some dependency differs from its value at the last run. Browser events, timers
and storage failures are parameters:
- the key pressed, `innerWidth`, the media query's answer;
- whether a `mousedown` hit the dropdown;
- whether `window` exists and whether `getItem` / `setItem` throw.

## Model

| member | source | states |
|---|---|---|
| Js.OrElse | src/components/UI/Button.jsx:48-49 | `x \|\| fallback` gives `x` exactly when it is truthy (given and non-empty), the fallback otherwise |
| Js.Default | src/components/UI/Button.jsx:27-30 | a destructuring default applies only when the prop is undefined, never to a given empty value |
| Js.LowerChar | src/pages/Resources.jsx:27 | lower-casing one character: the result is never an upper-case letter, other characters are unchanged, upper-case letters move by 32 |
| Js.ToLower | src/pages/Resources.jsx:27 | `toLowerCase` keeps the length and lower-cases each character in place |
| Js.ToLowerIdempotent | src/pages/Resources.jsx:27 | lower-casing twice is lower-casing once |
| Lists.MapSeq | src/pages/Portfolio.jsx:32-40 | `.map` keeps the length and applies the function at each index |
| Lists.FindIndex | src/pages/Portfolio.jsx:42 | `findIndex` returns the first index whose key matches, or -1 exactly when no key matches |
| Lists.DedupBySpec | src/pages/Portfolio.jsx:42 | de-duplicating by key leaves each key once, keeps every key, keeps for each key its first record, and keeps the original order |
| Lists.DedupByDistinctUnchanged | src/pages/Portfolio.jsx:42 | a list without repeated keys is left unchanged |
| Lists.DistinctSpec | src/pages/Portfolio.jsx:45 | `[...new Set(xs)]` keeps each value once, keeps every value and keeps first-occurrence order |
| Lists.FilterBySpec | src/pages/Portfolio.jsx:54-56 | `.filter` on a key keeps exactly the entries with that key, in order |
| Lists.FilterByNonEmpty | src/pages/Portfolio.jsx:54-56 | filtering on a key some entry has gives a non-empty list |
| Lists.FilterOptionsSpec | src/pages/Portfolio.jsx:45 | the filter row is `'All'` followed by each category of the list once, in first-occurrence order, and by nothing else |
| Lists.ApplyFilterSpec | src/pages/Portfolio.jsx:50-58 | the filter `'All'` shows the whole list; any other filter shows exactly the entries of that category |
| Lists.OfferedFilterNonEmpty | src/pages/Blog.jsx:31-38 | choosing an offered category other than `'All'` never gives an empty list |
| Lists.GridOrMessage | src/pages/Portfolio.jsx:87-104 | the grid is shown exactly when there are items; otherwise the empty message is shown |
| Lists.StaggerDelay | src/pages/Portfolio.jsx:99 | the animation delay `(index % 3) * 100` is 0, 100 or 200 and follows the index modulo 3 |
| ThemeStore.Escape | src/App.jsx:67 | escaping a string body for JSON never shortens it |
| ThemeStore.UnescapeEscape | src/App.jsx:54 | the string body written by `JSON.stringify` reads back unchanged |
| ThemeStore.ParseStringify | src/App.jsx:54 | `JSON.parse(JSON.stringify(v))` is `v` for the stored values |
| ThemeStore.ParseUndefined | src/App.jsx:54 | the stored text `undefined` is not JSON, so `JSON.parse` throws |
| ThemeStore.ReadStored | src/App.jsx:50-61 | the initial read gives the default when there is no window, the read throws, the item is null or empty, or parsing fails; otherwise it gives the parsed value |
| ThemeStore.WriteValueThenRead | src/App.jsx:63-72 | a value written with `setValue` is the value read in a later session |
| ThemeStore.WriteUpdaterThenRead | src/App.jsx:63-72 | an updater written with `setValue` is stored as `undefined`, and a later session reads the default |
| App.ToggledThemeIsTheme | src/App.jsx:185-187 | a toggle always lands on `'dark'` or `'light'` and never on the theme it started from |
| App.ToggleThemeTwice | src/App.jsx:185-187 | two toggles restore `'dark'` and `'light'`, and any other stored value becomes `'light'` |
| App.Shell.constructor | src/App.jsx:104-111 | on mount the theme is read from storage (default `'dark'`), both sidebar flags are false, and the media query starts false |
| App.Shell.SetTheme | src/App.jsx:63-72 | memory takes the new value; storage takes its JSON text only when there is a window and `setItem` does not throw; nothing else changes |
| App.Shell.ToggleTheme | src/App.jsx:185-187 | as written: the theme flips in memory, but the stored text becomes `undefined` |
| App.Shell.ToggleThemePersisted | src/App.jsx:185-187 | corrected: the theme flips, and storage holds the new theme's JSON |
| App.Shell.ToggleSidebar | src/App.jsx:171-173 | flips the slide-out flag and changes nothing else |
| App.Shell.CloseSidebar | src/App.jsx:175-177 | clears the slide-out flag and changes nothing else |
| App.Shell.ToggleSidebarCollapse | src/App.jsx:179-183 | flips the collapse flag on desktop; on mobile it does nothing |
| App.Shell.KeyDown | src/App.jsx:152-168 | Escape closes the slide-out; Ctrl or Cmd with Shift and `T` toggles the theme as written and cancels the default action; nothing else changes |
| App.Shell.Resize | src/App.jsx:138-149 | a resize closes the slide-out exactly when the listener is installed (mobile and open) and the width is above 768 |
| App.Shell.MediaQueryChanged | src/App.jsx:81-97 | the `(max-width: 768px)` answer is updated and nothing else changes |
| App.ScrollLockTracksResizeListener | src/App.jsx:190-200 | body overflow is `hidden` exactly while the slide-out is open on mobile, and `unset` otherwise |
| App.BodyClassFollowsDataTheme | src/App.jsx:115-119 | the body class is `theme-` followed by the `data-theme` value |
| App.ResizeToDesktopSession | src/App.jsx:138-200 | opening the slide-out on mobile, then widening the window past 768 pixels, closes it and restores body scrolling; on desktop Escape keeps it closed and the collapse button collapses the sidebar |
| App.ReloadAfterToggleIsDark | src/App.jsx:185-187 | after the as-written toggle, a reload reads `'dark'` whatever theme was showing |
| App.ToggleFromDarkForgetsLight | src/App.jsx:185-187 | concretely, toggling from dark shows light, but a reload does not show light |
| App.ReloadAfterPersistedToggle | src/App.jsx:63-72 | after the corrected toggle, a reload shows the theme that was showing |
| Sidebar.LinkPaths | src/components/Layout/Sidebar.jsx:40-107 | the paths of a link list, one per link, in order |
| Sidebar.MenuCoversRoutes | src/components/Layout/Sidebar.jsx:40-107 | the menu links exactly the paths of the router's table (src/App.jsx:242-252), each once |
| Sidebar.ThemeToggleLabel | src/components/Layout/Sidebar.jsx:413 | the theme button names the theme a click switches to |
| Sidebar.OpeningOnMobileIsUndone | src/components/Layout/Sidebar.jsx:132-136 | as written, opening the slide-out on mobile re-runs the route effect, which closes it again |
| Sidebar.OpeningOnMobileStays | src/components/Layout/Sidebar.jsx:132-136 | with the path as the only dependency, opening does not re-run the effect |
| Sidebar.RouteChangeClosesInBoth | src/components/Layout/Sidebar.jsx:132-136 | on a route change both versions close the slide-out exactly when it is open on mobile |
| Sidebar.SidebarView.constructor | src/components/Layout/Sidebar.jsx:36 | the CV dropdown starts closed and no effect has run yet |
| Sidebar.SidebarView.Navigate | src/components/Layout/Sidebar.jsx:132-136 | a route change updates the path and nothing else |
| Sidebar.SidebarView.RouteEffect | src/components/Layout/Sidebar.jsx:132-136 | as written: after a commit where path, mobile flag or open flag changed, an open mobile slide-out is closed |
| Sidebar.SidebarView.RouteEffectOnPath | src/components/Layout/Sidebar.jsx:132-136 | corrected: only a path change closes an open mobile slide-out |
| Sidebar.SidebarView.KeyDown | src/components/Layout/Sidebar.jsx:139-150 | Escape closes the sidebar while it is open; other keys do nothing |
| Sidebar.SidebarView.LinkClick | src/components/Layout/Sidebar.jsx:176-180 | a link click closes the slide-out on mobile only |
| Sidebar.SidebarView.CvButtonClick | src/components/Layout/Sidebar.jsx:343 | the CV button flips the dropdown |
| Sidebar.SidebarView.CvItemClick | src/components/Layout/Sidebar.jsx:359-362 | a CV entry closes the dropdown, and on mobile the slide-out too |
| Sidebar.SidebarView.MouseDown | src/components/Layout/Sidebar.jsx:163-174 | a mousedown outside the dropdown closes it while it is open; a mousedown inside does nothing |
| Sidebar.AriaHiddenIffClosedOnMobile | src/components/Layout/Sidebar.jsx:250 | the navigation is `aria-hidden` exactly when it is a closed mobile slide-out |
| Sidebar.MobileMenuSession | src/components/Layout/Sidebar.jsx:132-180 | on mobile, the as-written route effect closes the slide-out right after it opens; with the path-only effect it stays open until a CV entry is chosen, which closes both the dropdown and the slide-out |
| Navbar.NavbarView.constructor | src/components/Layout/Navbar.jsx:11-12 | the menu and the dropdown start closed |
| Navbar.NavbarView.ToggleMenu | src/components/Layout/Navbar.jsx:15-20 | the hamburger flips the menu flag and calls `toggleSidebar` exactly once, which flips the shell's slide-out |
| Navbar.NavbarView.CloseMenu | src/components/Layout/Navbar.jsx:22-27 | closing clears the menu and the dropdown and does not call `toggleSidebar` |
| Navbar.NavbarView.ToggleDropdown | src/components/Layout/Navbar.jsx:29-31 | a click on Roles flips only the dropdown |
| Navbar.NavbarView.Hover | src/components/Layout/Navbar.jsx:64 | pointer enter opens the dropdown and pointer leave closes it |
| Navbar.ClassesTrackFlags | src/components/Layout/Navbar.jsx:58-68 | the `active` classes are present exactly when their flags are set |
| Navbar.MenuSession | src/components/Layout/Navbar.jsx:15-31 | closing the menu does not close the slide-out, so the next hamburger click opens the menu while closing the slide-out, on the second `toggleSidebar` call |
| Button.BaseClass | src/components/UI/Button.jsx:35 | the class starts with `btn `; without props it is `btn primary-btn ` |
| Button.Render | src/components/UI/Button.jsx:37-83 | a truthy `to` starting with `http://` or `https://` gives an anchor with `\|\|` defaults for target and rel, whose href is a passed `href` when one is given (the spread props come last) and `to` otherwise; another truthy `to` gives a router link; anything else gives a `<button>` whose type defaults only when undefined |
| Button.SpreadHrefOverridesTo | src/components/UI/Button.jsx:44-51 | on an external link a passed `href` replaces `to` as the anchor's target; without one the target is `to` |
| Button.HrefWithoutToIsAButton | src/components/UI/Button.jsx:72-83 | an `href` without `to` still renders a `<button>` (the href is only passed through) |
| Button.EmptyToIsAButton | src/components/UI/Button.jsx:37 | an empty `to` is falsy and gives a `<button>` |
| Button.TypeDefaultOnlyWhenMissing | src/components/UI/Button.jsx:27 | the type default applies to a missing type but not to an empty one |
| Button.ExternalDefaults | src/components/UI/Button.jsx:41-55 | an external link defaults to `_blank` and `noopener noreferrer`, even when those props are given empty |
| Button.PathsAreRouterLinks | src/components/UI/Button.jsx:56-69 | a site path gives a router link; the scheme check is case-sensitive |
| Accordion.DropSpaces | src/components/UI/Accordion.jsx:53 | removes exactly the leading run of `\s` characters |
| Accordion.Slug | src/components/UI/Accordion.jsx:45-55 | `title.replace(/\s+/g, '-')` contains no `\s` character and is never longer than the title |
| Accordion.SlugNoSpace | src/components/UI/Accordion.jsx:45-55 | a title without whitespace is its own slug |
| Accordion.SlugIdempotent | src/components/UI/Accordion.jsx:45-55 | slugging twice is slugging once |
| Accordion.DropSpacesRun | src/components/UI/Accordion.jsx:53 | a whole run of whitespace is consumed, up to the next non-space character |
| Accordion.SlugRun | src/components/UI/Accordion.jsx:45-55 | a run of whitespace of any length becomes a single `-` |
| Accordion.AccordionItem.constructor | src/components/UI/Accordion.jsx:16-18 | `isOpen` starts as `isOpenInitially`, defaulting to false only when undefined |
| Accordion.AccordionItem.Toggle | src/components/UI/Accordion.jsx:25-27 | a click flips `isOpen` |
| Accordion.ControlsTheRegion | src/components/UI/Accordion.jsx:45-53 | `aria-controls` names the content region's id, which is the prefix followed by the slug and contains no whitespace |
| Accordion.AttributesTrackOpen | src/components/UI/Accordion.jsx:31-48 | `aria-expanded`, the header and icon classes and the max height all follow `isOpen` |
| Accordion.LabelledByDangles | src/components/UI/Accordion.jsx:55 | as written, `aria-labelledby` names an id that no element carries |
| Accordion.LabelledByResolves | src/components/UI/Accordion.jsx:42-55 | with the header carrying its id, `aria-labelledby` resolves to the header, and the header and content ids are different |
| Faq.NextActive | src/pages/Faq.jsx:27-29 | a click closes the clicked item when it is open, and otherwise opens it alone |
| Faq.ItemClass | src/pages/Faq.jsx:47 | an item has the `active` class exactly when it is the open one |
| Faq.MaxHeight | src/pages/Faq.jsx:60 | the answer is `200px` high exactly when its item is open, and `0` otherwise |
| Faq.Accordion | src/pages/Faq.jsx:43-68 | one item per question in order, with delay `index * 100`, or the empty message when there are no questions |
| Faq.FaqPage.constructor | src/pages/Faq.jsx:25 | no item starts open |
| Faq.FaqPage.Toggle | src/pages/Faq.jsx:27-29 | the open item is updated as `toggleAccordion` says |
| Faq.AtMostOneOpen | src/pages/Faq.jsx:43-62 | at most one item is shown open |
| Faq.ToggleTwice | src/pages/Faq.jsx:27-29 | clicking the same item twice restores the state exactly when nothing else was open |
| Faq.ToggleOtherMovesOpenItem | src/pages/Faq.jsx:27-29 | clicking another item opens it and collapses the item that was open |
| Faq.ClickSession | src/pages/Faq.jsx:27-29 | opening the first item, then the third, leaves only the third open; clicking the third again leaves none open |
| Contact.EmptyForm | src/pages/Contact.jsx:25-30 | the form has the four fields, all empty |
| Contact.ContactPage.constructor | src/pages/Contact.jsx:25-30 | the form starts empty and nothing has been logged or shown |
| Contact.ContactPage.HandleChange | src/pages/Contact.jsx:32-38 | an input change sets its field and keeps the others |
| Contact.ContactPage.HandleSubmit | src/pages/Contact.jsx:40-47 | submitting cancels the default action, logs the form, shows the thank-you alert and clears the form |
| Contact.ContactPage.SubmitClicked | src/pages/Contact.jsx:93-140 | the browser submits only when every required field is filled, and then the handler runs; otherwise nothing changes |
| Contact.ChangeTouchesOneField | src/pages/Contact.jsx:32-38 | a change keeps the four fields and alters only the named one |
| Contact.EmptyFormIncomplete | src/pages/Contact.jsx:93-140 | the cleared form cannot be submitted again |
| Contact.FilledFormComplete | src/pages/Contact.jsx:93-140 | filling all four fields makes the form submittable |
| Contact.VisitAndSubmit | src/pages/Contact.jsx:32-140 | a filled form submits once, logging the typed email and showing the thank-you alert; the cleared form then cannot be submitted, so the log keeps one entry |
| Portfolio.ProjectGrid | src/pages/Portfolio.jsx:87-104 | one card per project in order, with delays 0, 100 and 200; the message when there are no projects |
| Portfolio.FilterButtonClass | src/pages/Portfolio.jsx:76 | a button is `active` exactly when its category is the filter |
| Portfolio.PortfolioPage.constructor | src/pages/Portfolio.jsx:42-48 | the page starts with filter `'All'` and the de-duplicated list shown |
| Portfolio.PortfolioPage.SelectFilter | src/pages/Portfolio.jsx:50-58 | choosing a filter shows the list the effect computes for it |
| Portfolio.RenderPass | src/pages/Portfolio.jsx:47-58 | the filter effect runs only when its dependencies changed; when it runs it records them, keeps the filter, stores the very `allProjects` array for `'All'` and a fresh array otherwise, and React renders again exactly when the stored array differs from the held one |
| Portfolio.MountSettles | src/pages/Portfolio.jsx:47-58 | on mount the effect stores the array the state already holds, so the page settles after one render |
| Portfolio.PassAsWrittenRerenders | src/pages/Portfolio.jsx:27-58 | as written, any render after the mount sees a new `allProjects`, so the effect runs, stores a new array and asks for another render, keeping the filter |
| Portfolio.AsWrittenNeverSettles | src/pages/Portfolio.jsx:27-58 | as written, after any number of further renders the next one still asks for another render: the cycle never ends |
| Portfolio.ClickNeverSettles | src/pages/Portfolio.jsx:27-58 | clicking a category other than `'All'` after the mount starts that endless cycle |
| Portfolio.HoistedSettles | src/pages/Portfolio.jsx:27-58 | with `allProjects` built once, the render after any pass runs no effect and leaves the state unchanged |
| Portfolio.CombinedLayout | src/pages/Portfolio.jsx:27-41 | the spread array holds the role projects unchanged, then one card per publication: same id, image and title, prefixed category, the snippet as description, the link as details, marked external |
| Portfolio.AllProjectsSpec | src/pages/Portfolio.jsx:42 | `allProjects` has distinct ids, covers every id, keeps for each id the first record and keeps spread order |
| Portfolio.DistinctIdsKeepAll | src/pages/Portfolio.jsx:42 | with no repeated id, de-duplication drops nothing |
| Portfolio.InitialGridNonEmpty | src/pages/Portfolio.jsx:87-104 | the first render shows the grid exactly when some project exists |
| Portfolio.OfferedCategoryShowsProjects | src/pages/Portfolio.jsx:45-58 | every offered category leads to a grid, never to the message |
| Portfolio.OneActiveButton | src/pages/Portfolio.jsx:70-80 | with an offered filter, exactly one button is active |
| Blog.DetailLink | src/pages/Blog.jsx:76 | a card links to `/blog/` followed by its id, and the id reads back from the link |
| Blog.ArticleGrid | src/pages/Blog.jsx:67-84 | one internal card per article in order, linking to its id, with delays 0, 100 and 200; the message when there are no articles |
| Blog.BlogPage.constructor | src/pages/Blog.jsx:26-29 | the page starts with filter `'All'`, every article shown, and the categories row |
| Blog.BlogPage.SelectFilter | src/pages/Blog.jsx:31-38 | choosing a filter shows the list the effect computes for it |
| Blog.OfferedCategoryShowsArticles | src/pages/Blog.jsx:26-38 | every offered category leads to a grid |
| BlogArticleDetail.FindArticle | src/pages/BlogArticleDetail.jsx:29 | finds the first article whose id equals the URL segment, or none exactly when no id equals it |
| BlogArticleDetail.RenderBlock | src/pages/BlogArticleDetail.jsx:61-106 | paragraphs, level-2 and level-3 headings, images with optional caption, lists and code render; other heading levels and unknown types render nothing |
| BlogArticleDetail.CategoryLink | src/pages/BlogArticleDetail.jsx:128 | the category link is `/blog?category=` followed by the category |
| BlogArticleDetail.RenderAsWritten | src/pages/BlogArticleDetail.jsx:42-140 | not found gives the back-to-blog view; an HTML-string body fails on `.map`; otherwise the view carries the found article's title, image and tags, links its category through `CategoryLink`, renders the blocks in order and falls back to the title for the alt text |
| BlogArticleDetail.RenderCorrected | src/pages/BlogArticleDetail.jsx:42-140 | never fails, agrees with the as-written page wherever that renders, and shows an HTML body as HTML |
| BlogArticleDetail.BlogLinkFindsArticle | src/pages/BlogArticleDetail.jsx:29 | with distinct ids, the blog card's link finds its own article |
| BlogArticleDetail.SiteArticlesFailAsWritten | src/pages/BlogArticleDetail.jsx:140 | every article of the site fails to render as written, and renders after the correction |
| BlogArticleDetail.UnsupportedHeadingAndAlt | src/pages/BlogArticleDetail.jsx:65-116 | a level-4 heading disappears, and an empty alt text falls back to the title |
| Resources.ResourceIcon | src/pages/Resources.jsx:26-40 | the icon follows the lower-cased type: book, tool, course, article or website, otherwise the lightbulb |
| Resources.IconIgnoresCase | src/pages/Resources.jsx:27 | the icon does not depend on letter case |
| Resources.UnknownTypeIsLightbulb | src/pages/Resources.jsx:37-38 | any other type gets the lightbulb |
| Resources.ResourceCard | src/pages/Resources.jsx:56-69 | a card has the type's icon and an explore link exactly when the link is truthy |
| Resources.ResourceSection | src/pages/Resources.jsx:54-71 | one card per resource, in order, or the message when there are no resources |
| Resources.RenderAsWritten | src/pages/Resources.jsx:23-71 | a missing `resources` key throws a TypeError; a truthy link throws a ReferenceError on the unimported arrow icon; a list without a truthy link renders its section |
| Resources.RenderCorrected | src/pages/Resources.jsx:23-71 | always renders: the message when the list is missing, the section otherwise |
| Resources.SiteDataFailsToRender | src/pages/Resources.jsx:23 | with the site's data the page throws as written, and shows the message after the correction |
| Resources.CorrectedAgreesWhereItRendered | src/pages/Resources.jsx:23-71 | the correction changes nothing where the as-written page rendered |
| Resources.LinkedResourceFails | src/pages/Resources.jsx:62-64 | one linked resource makes the as-written page throw, while the corrected page shows its link |
| Home.SortNewestFirst | src/pages/Home.jsx:44-45 | the in-place sort leaves the shared array newest first and a permutation of what it held |
| Home.SwapKeepsOrder | src/pages/Home.jsx:45 | one exchange during the sort keeps the prefix ordered except at the moving entry |
| Home.LatestArticles | src/pages/Home.jsx:43-48 | the teaser is the first `min(3, n)` of the sorted array, newest first, and no article left out is newer than one shown |
| Home.HeadMatch | src/pages/Home.jsx:45 | the first article of one newest-first ordering occurs in any other newest-first ordering of the same articles at a place sharing its first date |
| Home.NewestFirstDatesUnique | src/pages/Home.jsx:45 | any two newest-first orderings of the same articles have the same dates at the same positions, however ties are broken |
| Home.RoundedAverage | src/pages/Home.jsx:50-53 | `Math.round(sum / n)`: none (`NaN`) exactly when there are no skills, otherwise the integer nearest the mean, with halves rounded up |
| Home.AverageIsPercentage | src/pages/Home.jsx:115 | the average of percentages from 0 to 100 is a percentage from 0 to 100 |
| Home.SiteSkillAverage | src/pages/Home.jsx:386 | the site's six skills show as 86% |
| Home.FirstName | src/pages/Home.jsx:262 | `name.split(' ')[0]` is the space-free prefix that ends at the first space or at the end of the name |
| Home.FirstNameUnique | src/pages/Home.jsx:262 | that prefix is the only one with this property |
| Home.SiteFirstName | src/pages/Home.jsx:262 | the site's name gives `Mazi` |
| Home.SocialIconsSpec | src/pages/Home.jsx:183-210 | an icon is shown for exactly the profiles with a truthy link, in order: every icon has a link, every linked profile has an icon, the icons are a subsequence of the profiles and there are as many icons as linked profiles |
| Home.SiteCvMenu | src/pages/Home.jsx:139-177 | with only the full CV in the data, three of the four dropdown entries have no target |
| Home.HomePage.constructor | src/pages/Home.jsx:27-48 | first render: loading screen on, dropdown closed, the teaser list computed by sorting the shared array |
| Home.HomePage.TimerFired | src/pages/Home.jsx:39 | the timer ends the loading screen |
| Home.HomePage.CvButtonClick | src/pages/Home.jsx:131 | the CV button flips the dropdown |
| Home.HomePage.CvItemClick | src/pages/Home.jsx:146 | a CV entry closes the dropdown |
| Home.TeaserLinksNotFound | src/pages/Home.jsx:478 | as written, no teaser link of the site's articles finds an article, because the detail page looks up ids and the link carries the slug |
| Home.TeaserLinksFound | src/pages/Home.jsx:478 | with the id in the link, every teaser finds its own article |

## Left out

- Rendering, styling, icons as components, AOS animation, focus management,
  the `ScrollToTop` effect, the Header and Footer, and the router's own
  matching. The pages are modelled as the values they compute. The routes for
  the blog and its articles are commented out in src/App.jsx:248-249, so the
  blog pages are modelled as components on their own. The top navigation bar
  is not mounted by the shell; it is modelled on its own, over a `Shell`.
- `useMediaQuery`'s internals: its answer arrives through
  `Shell.MediaQueryChanged`. The tablet query is never read, so it is left out.
- The timer of the home loading screen is the method `HomePage.TimerFired`.
  The clock itself is not modelled.
- `console.warn`, `console.log` and `alert` are shown only as entries of
  `log` / `alerts` on the contact page, and the hook ignores them.
- ThemeStore.Parse, ThemeStore.ReadStored: JSON numbers, arrays and objects
  are not parsed. `Parse` accepts string literals, `true`, `false` and `null`,
  and treats any other text as a parse failure, as it also treats whitespace
  around a value. Within a string literal only the `\"` and `\\` escapes
  are read: `JSON.parse`'s `\n`, `\t`, `\uXXXX` and the other escapes count
  as failures here, and `ThemeStore.Stringify` does not escape control
  characters as `JSON.stringify` does. The stored themes `'light'` and
  `'dark'` contain none of these characters.
- Dates are numbers `YYYYMMDD`, which compare as `new Date` does on the
  site's `YYYY-MM-DD` strings. `toLocaleDateString` is not modelled.
- Home.SortNewestFirst: the sort is an insertion sort that swaps only on a
  strict `<`. The model does not state that ties keep their input order,
  which `Array.prototype.sort` guarantees since ES2019. `Home.NewestFirstDatesUnique`
  shows that the dates shown do not depend on it.
- Js.ToLower: only the ASCII letters are lower-cased. Unicode case mapping
  is left out.
- The article bodies keep only their opening heading. The site's full HTML
  text is not needed for any property.
- Portfolio.PortfolioPage.SelectFilter: the filter effect depends on
  `allProjects`, which is a new array on every render, so after any click the
  render and effect cycle never settles (`Portfolio.AsWrittenNeverSettles`).
  The page class models only the list one run of the effect shows; the cycle
  itself is modelled on values in `Portfolio.RenderPass`.
- The Blog cards read `article.preview`, which no article has. The card's
  text is not modelled.
- Social links in the sidebar fall back to `#`. They are not modelled.
- Contact.ContactPage.SubmitClicked: the browser's checks stop at
  `required`. The email format check of `type="email"` is not modelled, so
  `Contact.FilledFormComplete` and `Contact.VisitAndSubmit` hold only for
  emails that check accepts; the model lets any non-empty email through.

## Findings

| source | as written | input that shows it | evidently intended | confidence | as-written member | corrected member |
|---|---|---|---|---|---|---|
| src/App.jsx:185-187 | `toggleTheme` hands `setTheme` an updater function, and `setValue` stores `JSON.stringify` of it, which is `undefined` | toggle from `'dark'`, then reload: storage holds `undefined`, parsing throws, and the theme is `'dark'` again | the stored text is the JSON of the new theme, so a reload keeps the theme | high (not executed) | App.ReloadAfterToggleIsDark | App.ReloadAfterPersistedToggle |
| src/pages/Home.jsx:478 | the teaser links to `/blog/` followed by the article's slug, but the detail page looks up `id === slug` (src/pages/BlogArticleDetail.jsx:29) | the newest article: the link segment `5-common-mistakes-business-financial-reports` matches no id, so the page shows "Article Not Found" | the link carries the id, as the blog list's cards do | high (not executed) | Home.TeaserLinksNotFound | Home.TeaserLinksFound |
| src/pages/Resources.jsx:23-64 | the page destructures `resources` from data that has no such key, and uses `FaArrowRight` without importing it | the site's data: `resources.length` on `undefined` throws; with any linked resource the arrow icon throws | a missing list shows the empty message, and the arrow is imported | high (not executed) | Resources.SiteDataFailsToRender | Resources.RenderCorrected |
| src/components/Layout/Sidebar.jsx:132-136 | the route effect depends on `isOpen` and `isMobile` as well as the path, and calls `onClose` whenever it runs on an open mobile slide-out | on mobile, tap the hamburger: `isOpen` becomes true, the effect re-runs and closes the slide-out at once | close the slide-out on a route change only | medium (not executed) | Sidebar.OpeningOnMobileIsUndone | Sidebar.OpeningOnMobileStays |
| src/pages/BlogArticleDetail.jsx:140 | the page calls `article.content.map`, but each article's `content` is an HTML string (src/data/blogArticles.js:28) | open article `1`: a string has no `map`, so rendering throws | the page renders the HTML body | high (not executed) | BlogArticleDetail.SiteArticlesFailAsWritten | BlogArticleDetail.RenderCorrected |
| src/pages/Portfolio.jsx:27-58 | `allProjects` is built anew on every render and is a dependency of the filter effect, which stores a new array in state whenever it runs | click any category button other than `All`: every render then has a new `allProjects`, so the effect runs, sets a new `filteredProjects` and causes another render, without end | `allProjects` is built once, so the effect runs only when the filter changes | medium (not executed) | Portfolio.AsWrittenNeverSettles | Portfolio.HoistedSettles |
| src/components/UI/Accordion.jsx:55 | the content region's `aria-labelledby` names `accordion-header-…`, an id no element carries | any title, e.g. `Tax Planning`: the region names `accordion-header-Tax-Planning`, and the header has no id | the header carries that id | high (not executed) | Accordion.LabelledByDangles | Accordion.LabelledByResolves |
