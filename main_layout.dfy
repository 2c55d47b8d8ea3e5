/** The page shell: whether the sidebar is open, which menu groups are expanded, and the
    classes derived from them for the sidebar and the content area. */
module MainLayout {
  import opened Navigation

  const LargeOpenKeys: seq<string> := ["products", "orders"]

  function IsMobile(s: Screens): bool
  {
    !s.md
  }

  /** The sidebar is drawn narrow on anything below the large breakpoint. */
  function IsSidebarCollapsed(s: Screens): bool
  {
    !s.lg
  }

  /** The open flag after the hamburger is pressed: flipped on mobile, kept otherwise. */
  function Toggled(s: Screens, isSidebarOpen: bool): (r: bool)
    ensures r != isSidebarOpen <==> IsMobile(s)
  {
    if IsMobile(s) then !isSidebarOpen else isSidebarOpen
  }

  /** Pressing twice on the same screen restores the flag. */
  lemma ToggleTwice(s: Screens, isSidebarOpen: bool)
    ensures Toggled(s, Toggled(s, isSidebarOpen)) == isSidebarOpen
  {
  }

  /** The sidebar is drawn on every non-mobile screen, and on mobile only when open. */
  function ShouldRenderSidebar(s: Screens, isSidebarOpen: bool): (r: bool)
    ensures !IsMobile(s) ==> r
    ensures IsMobile(s) ==> (r <==> isSidebarOpen)
  {
    !IsMobile(s) || isSidebarOpen
  }

  /** The content area's left margin, which leaves room for the sidebar. */
  function ContentMarginClass(s: Screens, isSidebarOpen: bool): (r: string)
    ensures r == "" <==> !ShouldRenderSidebar(s, isSidebarOpen)
    ensures r == "ml-64" <==> !IsMobile(s) && s.lg
    ensures r == "ml-20" <==> (IsMobile(s) && isSidebarOpen) || (!IsMobile(s) && !s.lg)
  {
    if IsMobile(s) then (if isSidebarOpen then "ml-20" else "")
    else (if IsSidebarCollapsed(s) then "ml-20" else "ml-64")
  }

  /** The sidebar's width class. */
  function SidebarWidthClass(s: Screens): string
  {
    if IsSidebarCollapsed(s) then "w-20 px-2" else "w-64 px-4"
  }

  /** On real viewports, whenever the sidebar is drawn the content margin is as wide as the
      sidebar: a collapsed sidebar pairs with "ml-20", a wide one with "ml-64". */
  lemma MarginMatchesSidebar(s: Screens, isSidebarOpen: bool)
    requires Nested(s)
    requires ShouldRenderSidebar(s, isSidebarOpen)
    ensures ContentMarginClass(s, isSidebarOpen) == (if IsSidebarCollapsed(s) then "ml-20" else "ml-64")
    ensures ContentMarginClass(s, isSidebarOpen)[3..] == SidebarWidthClass(s)[2..4]
  {
  }

  /** On mobile the hamburger is shown exactly when the sidebar is closed, and pressing it
      opens the sidebar and hides the hamburger. */
  lemma HamburgerOpensSidebarOnMobile(s: Screens, isSidebarOpen: bool)
    requires IsMobile(s)
    ensures Flags(s, isSidebarOpen).hamburger <==> !isSidebarOpen
    ensures Flags(s, isSidebarOpen).hamburger ==>
              Toggled(s, isSidebarOpen) && ShouldRenderSidebar(s, Toggled(s, isSidebarOpen))
              && !Flags(s, Toggled(s, isSidebarOpen)).hamburger
  {
  }

  /** On a tablet with the flag off (reached by loading on a mobile width and then widening)
      the hamburger is shown but pressing it changes nothing; the sidebar is drawn anyway. */
  lemma HamburgerInertOnTablet()
    ensures var tablet := Screens(true, false);
            && Flags(tablet, false).hamburger
            && Toggled(tablet, false) == false
            && ShouldRenderSidebar(tablet, false)
  {
  }

  /** The layout's state: the sidebar-open flag and the expanded menu groups. */
  class Layout {
    var isSidebarOpen: bool
    var openKeys: seq<string>

    /** The state on first render, from the breakpoints seen then: open unless mobile, and
        the product and order groups expanded on large screens. */
    constructor (s: Screens)
      ensures isSidebarOpen == !IsMobile(s)
      ensures openKeys == if s.lg then LargeOpenKeys else []
    {
      isSidebarOpen := !IsMobile(s);
      openKeys := if s.lg then LargeOpenKeys else [];
    }

    /** `handleSidebarToggle` on the current breakpoints. */
    method HandleSidebarToggle(s: Screens)
      modifies this`isSidebarOpen
      ensures isSidebarOpen == Toggled(s, old(isSidebarOpen))
      ensures openKeys == old(openKeys)
    {
      if IsMobile(s) {
        isSidebarOpen := !isSidebarOpen;
      }
    }

    /** `onOpenChange`: the expanded groups become exactly the menu's new list. */
    method OnOpenChange(keys: seq<string>)
      modifies this`openKeys
      ensures openKeys == keys
      ensures isSidebarOpen == old(isSidebarOpen)
    {
      openKeys := keys;
    }
  }
}
