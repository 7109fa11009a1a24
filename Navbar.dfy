/** The top navigation bar of src/components/Layout/Navbar.jsx: a hamburger that
    flips its own menu flag and toggles the shell's sidebar, a roles dropdown
    opened by hover or click, and a route change that closes both. */
module Navbar {
  import opened App

  class NavbarView {
    /** The shell whose `toggleSidebar` the bar receives. */
    const shell: Shell
    var isOpen: bool
    var isDropdownOpen: bool
    /** How many times the bar has called `toggleSidebar`. */
    var toggleSidebarCalls: nat

    constructor (shell: Shell)
      ensures this.shell == shell && !isOpen && !isDropdownOpen && toggleSidebarCalls == 0
    {
      this.shell := shell;
      isOpen := false;
      isDropdownOpen := false;
      toggleSidebarCalls := 0;
    }

    /** `toggleMenu`: flips the menu flag and calls `toggleSidebar` exactly once. */
    method ToggleMenu()
      modifies this, shell
      ensures isOpen == !old(isOpen) && isDropdownOpen == old(isDropdownOpen)
      ensures toggleSidebarCalls == old(toggleSidebarCalls) + 1
      ensures shell.isSidebarOpen == !old(shell.isSidebarOpen)
      ensures shell.theme == old(shell.theme) && shell.sidebarCollapsed == old(shell.sidebarCollapsed)
      ensures shell.isMobile == old(shell.isMobile) && shell.storage == old(shell.storage)
    {
      isOpen := !isOpen;
      shell.ToggleSidebar();
      toggleSidebarCalls := toggleSidebarCalls + 1;
    }

    /** `closeMenu` (the logo, every link, and the effect on a route change): both
        flags cleared, the sidebar left alone. */
    method CloseMenu()
      modifies this
      ensures !isOpen && !isDropdownOpen && toggleSidebarCalls == old(toggleSidebarCalls)
    {
      isOpen := false;
      isDropdownOpen := false;
    }

    /** `toggleDropdown`: a click on "Roles" flips only the dropdown. */
    method ToggleDropdown()
      modifies this
      ensures isDropdownOpen == !old(isDropdownOpen)
      ensures isOpen == old(isOpen) && toggleSidebarCalls == old(toggleSidebarCalls)
    {
      isDropdownOpen := !isDropdownOpen;
    }

    /** The pointer entering (`true`) or leaving (`false`) the roles item. */
    method Hover(entered: bool)
      modifies this
      ensures isDropdownOpen == entered
      ensures isOpen == old(isOpen) && toggleSidebarCalls == old(toggleSidebarCalls)
    {
      isDropdownOpen := entered;
    }

    function MenuClass(): (r: string)
      reads this
    {
      if isOpen then "nav-menu active" else "nav-menu"
    }

    function DropdownClass(): (r: string)
      reads this
    {
      if isDropdownOpen then "dropdown-menu active" else "dropdown-menu"
    }
  }

  /** The `active` classes say exactly what the two flags say. */
  lemma ClassesTrackFlags(n: NavbarView)
    ensures n.MenuClass() == "nav-menu active" <==> n.isOpen
    ensures n.DropdownClass() == "dropdown-menu active" <==> n.isDropdownOpen
  {
  }

  /** Closing twice is closing once; the hamburger keeps its flag in step with the
      sidebar, but a route change closes the bar's menu and leaves the sidebar open. */
  method MenuSession(storage0: map<string, string>)
    returns (menuOpen: bool, sidebarOpen: bool, calls: nat)
    ensures menuOpen && !sidebarOpen && calls == 2
  {
    var shell := new Shell(storage0, true, false);
    var bar := new NavbarView(shell);
    bar.ToggleMenu();
    assert bar.isOpen && shell.isSidebarOpen && bar.toggleSidebarCalls == 1;
    bar.Hover(true);
    bar.ToggleDropdown();
    assert !bar.isDropdownOpen && bar.isOpen;
    bar.CloseMenu();
    bar.CloseMenu();
    assert !bar.isOpen && !bar.isDropdownOpen;
    assert shell.isSidebarOpen;
    bar.ToggleMenu();
    menuOpen, sidebarOpen, calls := bar.isOpen, shell.isSidebarOpen, bar.toggleSidebarCalls;
  }
}
