/** The shell layout controller of src/App.jsx: it owns the theme, the
    mobile slide-out flag and the desktop collapse flag, and its effects lock
    page scrolling, close the slide-out on Escape or on a resize to desktop
    width, and toggle the theme on Ctrl/Cmd+Shift+T. */
module App {
  import opened Js
  import opened ThemeStore

  /** The mobile breakpoint of `(max-width: 768px)` and of the resize listener. */
  const MobileMaxWidth: int := 768

  /** The paths of the router's route table, in declaration order. */
  const RoutePaths: seq<string> :=
    ["/", "/accountant", "/web-developer", "/data-analyst", "/research-academic",
     "/portfolio", "/resources", "/faq", "/contact"]

  /** The updater `toggleTheme` passes: `'dark'` becomes `'light'`, anything else `'dark'`. */
  function ToggledTheme(t: Json): (r: Json) {
    if t == Dark then Light else Dark
  }

  /** A toggle always lands on one of the two themes, never on what it started from. */
  lemma ToggledThemeIsTheme(t: Json)
    ensures ToggledTheme(t) == Dark || ToggledTheme(t) == Light
    ensures ToggledTheme(t) != t
  {
  }

  /** Two toggles restore `'dark'` and `'light'`; from any other stored value they give `'light'`. */
  lemma ToggleThemeTwice(t: Json)
    ensures t == Dark || t == Light ==> ToggledTheme(ToggledTheme(t)) == t
    ensures t != Dark && t != Light ==> ToggledTheme(ToggledTheme(t)) == Light
  {
  }

  /** `getItem(key)` on the storage contents: `None` is `null`. */
  function GetItem(storage: map<string, string>, key: string): (r: Option<string>) {
    if key in storage then Some(storage[key]) else None
  }

  class Shell {
    /** `theme` from `useLocalStorage('theme', 'dark')`. */
    var theme: Json
    var isSidebarOpen: bool
    var sidebarCollapsed: bool
    /** The `(max-width: 768px)` media query's current answer. */
    var isMobile: bool
    /** The contents of the browser's local storage. */
    var storage: map<string, string>
    /** Whether `window` exists (it does not during server rendering). */
    const hasWindow: bool

    /** Mounting: the theme is read back from storage, both sidebar flags are
        false, and the media query starts out false until its effect runs. */
    constructor (storage0: map<string, string>, hasWindow: bool, getThrows: bool)
      ensures this.hasWindow == hasWindow && storage == storage0
      ensures theme == ReadStored(GetItem(storage0, ThemeKey), hasWindow, getThrows, Dark)
      ensures !isSidebarOpen && !sidebarCollapsed && !isMobile
    {
      this.hasWindow := hasWindow;
      storage := storage0;
      theme := ReadStored(GetItem(storage0, ThemeKey), hasWindow, getThrows, Dark);
      isSidebarOpen := false;
      sidebarCollapsed := false;
      isMobile := false;
    }

    /** The hook's `setValue`: memory is updated first; the storage write is
        skipped without a window and lost when `setItem` throws. */
    method SetTheme(arg: SetArg, setThrows: bool)
      modifies this
      ensures theme == NextValue(arg, old(theme))
      ensures storage == if hasWindow && !setThrows then old(storage)[ThemeKey := WrittenText(arg)] else old(storage)
      ensures isSidebarOpen == old(isSidebarOpen) && sidebarCollapsed == old(sidebarCollapsed)
      ensures isMobile == old(isMobile)
    {
      theme := NextValue(arg, theme);
      if hasWindow && !setThrows {
        storage := storage[ThemeKey := WrittenText(arg)];
      }
    }

    /** `toggleTheme`, as written: it hands `setTheme` an updater function, so the
        in-memory theme flips but the stored text becomes `"undefined"`. */
    method ToggleTheme(setThrows: bool)
      modifies this
      ensures theme == ToggledTheme(old(theme))
      ensures storage == if hasWindow && !setThrows then old(storage)[ThemeKey := "undefined"] else old(storage)
      ensures isSidebarOpen == old(isSidebarOpen) && sidebarCollapsed == old(sidebarCollapsed)
      ensures isMobile == old(isMobile)
    {
      SetTheme(Updater(ToggledTheme), setThrows);
    }

    /** `toggleTheme` with the new value computed first and handed over as a value,
        so that the stored text is the JSON of the new theme. */
    method ToggleThemePersisted(setThrows: bool)
      modifies this
      ensures theme == ToggledTheme(old(theme))
      ensures storage == if hasWindow && !setThrows then old(storage)[ThemeKey := Stringify(theme)] else old(storage)
      ensures isSidebarOpen == old(isSidebarOpen) && sidebarCollapsed == old(sidebarCollapsed)
      ensures isMobile == old(isMobile)
    {
      SetTheme(Value(ToggledTheme(theme)), setThrows);
    }

    /** `toggleSidebar`: flips the slide-out flag and nothing else. */
    method ToggleSidebar()
      modifies this
      ensures isSidebarOpen == !old(isSidebarOpen)
      ensures theme == old(theme) && sidebarCollapsed == old(sidebarCollapsed)
      ensures isMobile == old(isMobile) && storage == old(storage)
    {
      isSidebarOpen := !isSidebarOpen;
    }

    /** `closeSidebar`: clears the slide-out flag and nothing else. */
    method CloseSidebar()
      modifies this
      ensures !isSidebarOpen
      ensures theme == old(theme) && sidebarCollapsed == old(sidebarCollapsed)
      ensures isMobile == old(isMobile) && storage == old(storage)
    {
      isSidebarOpen := false;
    }

    /** `toggleSidebarCollapse`: flips the collapse flag on desktop, does nothing on mobile. */
    method ToggleSidebarCollapse()
      modifies this
      ensures sidebarCollapsed == (if old(isMobile) then old(sidebarCollapsed) else !old(sidebarCollapsed))
      ensures theme == old(theme) && isSidebarOpen == old(isSidebarOpen)
      ensures isMobile == old(isMobile) && storage == old(storage)
    {
      if !isMobile {
        sidebarCollapsed := !sidebarCollapsed;
      }
    }

    /** The document `keydown` listener: Escape closes an open slide-out, and
        Ctrl or Cmd with Shift and `'T'` toggles the theme and cancels the browser default. */
    method KeyDown(key: string, ctrlKey: bool, metaKey: bool, shiftKey: bool, setThrows: bool)
      returns (preventDefault: bool)
      modifies this
      ensures preventDefault == ((ctrlKey || metaKey) && shiftKey && key == "T")
      ensures isSidebarOpen == (old(isSidebarOpen) && key != "Escape")
      ensures theme == if preventDefault then ToggledTheme(old(theme)) else old(theme)
      ensures storage == if preventDefault && hasWindow && !setThrows
        then old(storage)[ThemeKey := "undefined"] else old(storage)
      ensures sidebarCollapsed == old(sidebarCollapsed) && isMobile == old(isMobile)
    {
      if key == "Escape" && isSidebarOpen {
        isSidebarOpen := false;
      }
      preventDefault := false;
      if (ctrlKey || metaKey) && shiftKey && key == "T" {
        preventDefault := true;
        ToggleTheme(setThrows);
      }
    }

    /** The resize listener is installed exactly while the slide-out is open on mobile. */
    predicate ResizeListening()
      reads this
    {
      isMobile && isSidebarOpen
    }

    /** A `resize` event: the installed listener closes the slide-out once the
        window is wider than the breakpoint; otherwise nothing happens. */
    method Resize(innerWidth: int)
      modifies this
      ensures isSidebarOpen == (old(isSidebarOpen) && !(old(ResizeListening()) && innerWidth > MobileMaxWidth))
      ensures theme == old(theme) && sidebarCollapsed == old(sidebarCollapsed)
      ensures isMobile == old(isMobile) && storage == old(storage)
    {
      if ResizeListening() && innerWidth > MobileMaxWidth {
        isSidebarOpen := false;
      }
    }

    /** A `change` event of the `(max-width: 768px)` media query. */
    method MediaQueryChanged(matches: bool)
      modifies this
      ensures isMobile == matches
      ensures theme == old(theme) && sidebarCollapsed == old(sidebarCollapsed)
      ensures isSidebarOpen == old(isSidebarOpen) && storage == old(storage)
    {
      isMobile := matches;
    }

    /** `document.body.style.overflow`, as the scroll-lock effect leaves it. */
    function BodyOverflow(): (r: string)
      reads this
    {
      if isMobile && isSidebarOpen then "hidden" else "unset"
    }

    /** The `data-theme` attribute of the document element. */
    function DataTheme(): (r: string)
      reads this
    {
      JsString(theme)
    }

    /** The class name of the body. */
    function BodyClass(): (r: string)
      reads this
    {
      "theme-" + JsString(theme)
    }
  }

  /** Scrolling is locked exactly while the resize listener is installed. */
  lemma ScrollLockTracksResizeListener(s: Shell)
    ensures s.BodyOverflow() == "hidden" <==> s.ResizeListening()
    ensures s.BodyOverflow() == "unset" <==> !s.ResizeListening()
  {
  }

  /** The body class is the `data-theme` value with the `theme-` prefix. */
  lemma BodyClassFollowsDataTheme(s: Shell)
    ensures s.BodyClass() == "theme-" + s.DataTheme()
    ensures s.BodyClass()[6..] == s.DataTheme()
  {
  }

  /** Reopening the site after the as-written toggle reads `'dark'`, whatever theme was showing. */
  lemma ReloadAfterToggleIsDark(storage: map<string, string>)
    ensures ReadStored(GetItem(storage[ThemeKey := WrittenText(Updater(ToggledTheme))], ThemeKey), true, false, Dark) == Dark
  {
    WriteUpdaterThenRead(ToggledTheme, Dark);
  }

  /** The concrete case: toggling from dark shows light, but a reload shows dark again. */
  lemma ToggleFromDarkForgetsLight(storage: map<string, string>)
    ensures ToggledTheme(Dark) == Light
    ensures ReadStored(GetItem(storage[ThemeKey := "undefined"], ThemeKey), true, false, Dark) != ToggledTheme(Dark)
  {
    ParseUndefined();
  }

  /** With the new value written as a value, a reload shows the theme that was showing. */
  lemma ReloadAfterPersistedToggle(prev: Json, storage: map<string, string>)
    ensures ReadStored(GetItem(storage[ThemeKey := Stringify(ToggledTheme(prev))], ThemeKey), true, false, Dark)
      == ToggledTheme(prev)
  {
    ParseStringify(ToggledTheme(prev));
  }

  /** A session of the shell: the resize that takes an open mobile slide-out past
      the breakpoint closes it, later resizes find no listener, and Escape on a
      closed slide-out changes nothing. */
  method ResizeToDesktopSession(storage0: map<string, string>)
    returns (openOnDesktop: bool, overflow: string, collapsed: bool)
    ensures !openOnDesktop && overflow == "unset" && collapsed
  {
    var s := new Shell(storage0, true, false);
    s.MediaQueryChanged(true);
    s.ToggleSidebar();
    assert s.ResizeListening() && s.BodyOverflow() == "hidden";
    s.Resize(700);
    assert s.isSidebarOpen;
    s.Resize(1024);
    assert !s.isSidebarOpen && !s.ResizeListening() && s.BodyOverflow() == "unset";
    s.MediaQueryChanged(false);
    s.Resize(1280);
    assert !s.isSidebarOpen;
    var pd := s.KeyDown("Escape", false, false, false, false);
    assert !pd && !s.isSidebarOpen;
    s.ToggleSidebarCollapse();
    openOnDesktop, overflow, collapsed := s.isSidebarOpen, s.BodyOverflow(), s.sidebarCollapsed;
  }
}
