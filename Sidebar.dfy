/** The navigation sidebar of src/components/Layout/Sidebar.jsx: a permanent
    column on desktop and a slide-out on mobile, driven by the shell's flags.
    It closes itself on a route change, on Escape and on a link click, and owns
    the open flag of its download-CV dropdown. */
module Sidebar {
  import opened Js
  import opened ThemeStore
  import opened App

  /** One link of the navigation menu. */
  datatype NavLink = NavLink(name: string, path: string, description: string)

  /** A menu entry: a single link, or a titled group of links. */
  datatype NavItem = Single(link: NavLink) | Group(name: string, items: seq<NavLink>)

  /** `navItems`, in menu order. */
  function NavItems(): (r: seq<NavItem>) {
    [ Single(NavLink("Home", "/", "Welcome page")),
      Single(NavLink("Portfolio", "/portfolio", "View my work")),
      Group("Roles", [
        NavLink("Chartered Accountant", "/accountant", "Financial expertise"),
        NavLink("Web Developer", "/web-developer", "Web development"),
        NavLink("Data Analyst", "/data-analyst", "Data insights"),
        NavLink("Research & Academic", "/research-academic", "Academic work")]),
      Single(NavLink("Resources", "/resources", "Useful tools")),
      Single(NavLink("FAQ", "/faq", "Common questions")),
      Single(NavLink("Contact", "/contact", "Get in touch")) ]
  }

  function LinkPaths(links: seq<NavLink>): (r: seq<string>)
    ensures |r| == |links| && forall i :: 0 <= i < |links| ==> r[i] == links[i].path
  {
    if links == [] then [] else [links[0].path] + LinkPaths(links[1..])
  }

  /** The path of every link the menu renders, groups flattened in place. */
  function MenuPaths(items: seq<NavItem>): (r: seq<string>) {
    if items == [] then []
    else
      match items[0]
      case Single(link) => [link.path] + MenuPaths(items[1..])
      case Group(_, links) => LinkPaths(links) + MenuPaths(items[1..])
  }

  /** The menu links every route of the router's table once each, and links nothing else. */
  lemma MenuCoversRoutes()
    ensures forall p :: p in MenuPaths(NavItems()) <==> p in RoutePaths
    ensures |MenuPaths(NavItems())| == |RoutePaths|
  {
    var items := NavItems();
    assert MenuPaths(items[5..]) == ["/contact"];
    assert MenuPaths(items[4..]) == ["/faq", "/contact"];
    assert MenuPaths(items[3..]) == ["/resources", "/faq", "/contact"];
    assert LinkPaths(items[2].items) == ["/accountant", "/web-developer", "/data-analyst", "/research-academic"];
    assert MenuPaths(items[2..]) == ["/accountant", "/web-developer", "/data-analyst", "/research-academic",
                                     "/resources", "/faq", "/contact"];
    assert MenuPaths(items) == ["/", "/portfolio", "/accountant", "/web-developer", "/data-analyst",
                                "/research-academic", "/resources", "/faq", "/contact"];
  }

  /** The theme button's label names the theme a click switches to. */
  function ThemeToggleLabel(theme: Json): (r: string)
    ensures r == "Switch to " + JsString(ToggledTheme(theme)) + " theme"
  {
    "Switch to " + (if theme == Dark then "light" else "dark") + " theme"
  }

  /** The dependency values of the route-change effect (`onClose` is a stable callback). */
  datatype RouteDeps = RouteDeps(path: string, isMobile: bool, isOpen: bool)

  /** Whether the route-change effect, as written, calls `onClose` after a commit:
      it runs whenever the path, the media query or the open flag changed. */
  predicate RouteEffectCloses(last: Option<RouteDeps>, now: RouteDeps) {
    EffectRuns(last, now) && now.isMobile && now.isOpen
  }

  /** The route-change effect with the path as its only dependency. */
  predicate RouteEffectClosesOnPath(last: Option<string>, now: RouteDeps) {
    EffectRuns(last, now.path) && now.isMobile && now.isOpen
  }

  /** As written, opening the slide-out on mobile re-runs the route effect, which
      closes it again: on mobile the slide-out cannot stay open. */
  lemma OpeningOnMobileIsUndone(last: RouteDeps, now: RouteDeps)
    requires !last.isOpen && now.isOpen && now.isMobile
    ensures RouteEffectCloses(Some(last), now)
  {
  }

  /** With the path as the only dependency, opening stays open until the route changes. */
  lemma OpeningOnMobileStays(lastPath: string, now: RouteDeps)
    requires now.path == lastPath
    ensures !RouteEffectClosesOnPath(Some(lastPath), now)
  {
  }

  /** On a route change both versions close an open mobile slide-out, and neither
      closes anything on desktop or when it is already closed. */
  lemma RouteChangeClosesInBoth(last: RouteDeps, now: RouteDeps)
    requires last.path != now.path
    ensures RouteEffectCloses(Some(last), now) <==> now.isMobile && now.isOpen
    ensures RouteEffectClosesOnPath(Some(last.path), now) <==> now.isMobile && now.isOpen
  {
  }

  class SidebarView {
    /** The shell whose flags the sidebar receives and whose `closeSidebar` is its `onClose`. */
    const shell: Shell
    /** `location.pathname`. */
    var path: string
    var isCvDropdownOpen: bool
    /** The dependency values at the route effect's last run, as written. */
    var routeDeps: Option<RouteDeps>
    /** The path at the route effect's last run, when the path is its only dependency. */
    var routePath: Option<string>

    constructor (shell: Shell, path: string)
      ensures this.shell == shell && this.path == path
      ensures !isCvDropdownOpen && routeDeps == None && routePath == None
    {
      this.shell := shell;
      this.path := path;
      isCvDropdownOpen := false;
      routeDeps := None;
      routePath := None;
    }

    function Deps(): (r: RouteDeps)
      reads this, shell
    {
      RouteDeps(path, shell.isMobile, shell.isSidebarOpen)
    }

    /** The router moved to `newPath`. */
    method Navigate(newPath: string)
      modifies this
      ensures path == newPath
      ensures isCvDropdownOpen == old(isCvDropdownOpen) && routeDeps == old(routeDeps) && routePath == old(routePath)
    {
      path := newPath;
    }

    /** The route-change effect, as written, after a commit. */
    method RouteEffect()
      modifies this, shell
      ensures routeDeps == (if EffectRuns(old(routeDeps), old(Deps())) then Some(old(Deps())) else old(routeDeps))
      ensures shell.isSidebarOpen == (old(shell.isSidebarOpen) && !RouteEffectCloses(old(routeDeps), old(Deps())))
      ensures shell.theme == old(shell.theme) && shell.sidebarCollapsed == old(shell.sidebarCollapsed)
      ensures shell.isMobile == old(shell.isMobile) && shell.storage == old(shell.storage)
      ensures path == old(path) && isCvDropdownOpen == old(isCvDropdownOpen) && routePath == old(routePath)
    {
      var now := Deps();
      if EffectRuns(routeDeps, now) {
        routeDeps := Some(now);
        if now.isMobile && now.isOpen {
          shell.CloseSidebar();
        }
      }
    }

    /** The route-change effect with the path as its only dependency, after a commit. */
    method RouteEffectOnPath()
      modifies this, shell
      ensures routePath == Some(old(path))
      ensures shell.isSidebarOpen == (old(shell.isSidebarOpen) && !RouteEffectClosesOnPath(old(routePath), old(Deps())))
      ensures shell.theme == old(shell.theme) && shell.sidebarCollapsed == old(shell.sidebarCollapsed)
      ensures shell.isMobile == old(shell.isMobile) && shell.storage == old(shell.storage)
      ensures path == old(path) && isCvDropdownOpen == old(isCvDropdownOpen) && routeDeps == old(routeDeps)
    {
      var now := Deps();
      if EffectRuns(routePath, now.path) {
        routePath := Some(now.path);
        if now.isMobile && now.isOpen {
          shell.CloseSidebar();
        }
      }
    }

    /** The Escape listener is attached exactly while the sidebar is open. */
    predicate EscapeListening()
      reads this, shell
    {
      shell.isSidebarOpen
    }

    /** A `keydown` reaching the sidebar's listener, if one is attached. */
    method KeyDown(key: string)
      modifies shell
      ensures shell.isSidebarOpen == (old(shell.isSidebarOpen) && !(old(EscapeListening()) && key == "Escape"))
      ensures shell.theme == old(shell.theme) && shell.sidebarCollapsed == old(shell.sidebarCollapsed)
      ensures shell.isMobile == old(shell.isMobile) && shell.storage == old(shell.storage)
    {
      if EscapeListening() && key == "Escape" && shell.isSidebarOpen {
        shell.CloseSidebar();
      }
    }

    /** `handleLinkClick`: a menu link or the hire-me link closes the slide-out on mobile only. */
    method LinkClick()
      modifies shell
      ensures shell.isSidebarOpen == (old(shell.isSidebarOpen) && !old(shell.isMobile))
      ensures shell.theme == old(shell.theme) && shell.sidebarCollapsed == old(shell.sidebarCollapsed)
      ensures shell.isMobile == old(shell.isMobile) && shell.storage == old(shell.storage)
    {
      if shell.isMobile {
        shell.CloseSidebar();
      }
    }

    /** The download-CV button flips the dropdown. */
    method CvButtonClick()
      modifies this
      ensures isCvDropdownOpen == !old(isCvDropdownOpen)
      ensures path == old(path) && routeDeps == old(routeDeps) && routePath == old(routePath)
    {
      isCvDropdownOpen := !isCvDropdownOpen;
    }

    /** A CV entry of the dropdown: the dropdown closes, and on mobile the slide-out too. */
    method CvItemClick()
      modifies this, shell
      ensures !isCvDropdownOpen
      ensures shell.isSidebarOpen == (old(shell.isSidebarOpen) && !old(shell.isMobile))
      ensures shell.theme == old(shell.theme) && shell.sidebarCollapsed == old(shell.sidebarCollapsed)
      ensures shell.isMobile == old(shell.isMobile) && shell.storage == old(shell.storage)
      ensures path == old(path) && routeDeps == old(routeDeps) && routePath == old(routePath)
    {
      isCvDropdownOpen := false;
      if shell.isMobile {
        shell.CloseSidebar();
      }
    }

    /** The outside-click listener is attached exactly while the dropdown is open. */
    predicate OutsideClickListening()
      reads this
    {
      isCvDropdownOpen
    }

    /** A `mousedown` on the document; `inside` tells whether it hit the dropdown's container. */
    method MouseDown(inside: bool)
      modifies this
      ensures isCvDropdownOpen == (old(isCvDropdownOpen) && !(old(OutsideClickListening()) && !inside))
      ensures path == old(path) && routeDeps == old(routeDeps) && routePath == old(routePath)
    {
      if OutsideClickListening() && !inside {
        isCvDropdownOpen := false;
      }
    }

    /** `aria-hidden` of the navigation: hidden when closed on mobile, never on desktop. */
    function AriaHidden(): (r: bool)
      reads this, shell
    {
      if shell.isMobile then !shell.isSidebarOpen else false
    }
  }

  /** The navigation is hidden from assistive technology exactly when it is a closed mobile slide-out. */
  lemma AriaHiddenIffClosedOnMobile(v: SidebarView)
    ensures v.AriaHidden() <==> v.shell.isMobile && !v.shell.isSidebarOpen
  {
  }

  /** On mobile, the hamburger opens the slide-out and, as written, the commit that
      follows closes it again; with the path-only effect it stays open until a
      CV entry is chosen, which closes both the dropdown and the slide-out. */
  method MobileMenuSession(storage0: map<string, string>)
    returns (closedByEffect: bool, dropdownOpen: bool, sidebarOpen: bool)
    ensures closedByEffect && !dropdownOpen && !sidebarOpen
  {
    var shell := new Shell(storage0, true, false);
    shell.MediaQueryChanged(true);
    var v := new SidebarView(shell, "/");
    v.RouteEffect();
    v.RouteEffectOnPath();
    shell.ToggleSidebar();
    assert shell.isSidebarOpen;
    v.RouteEffect();
    closedByEffect := !shell.isSidebarOpen;

    shell.ToggleSidebar();
    v.RouteEffectOnPath();
    assert shell.isSidebarOpen;
    v.CvButtonClick();
    v.MouseDown(true);
    assert v.isCvDropdownOpen;
    v.CvItemClick();
    dropdownOpen, sidebarOpen := v.isCvDropdownOpen, shell.isSidebarOpen;
  }
}
