/** The top navigation bar: which of its parts are shown, decided from the two
    breakpoints and whether the sidebar is open. */
module Navigation {

  /** The breakpoints the layout reads: at least medium width, at least large width. */
  datatype Screens = Screens(md: bool, lg: bool)

  /** Real viewports satisfy this: a large screen is also at least medium. */
  predicate Nested(s: Screens)
  {
    s.lg ==> s.md
  }

  /** The three width classes as the bar computes them. */
  datatype WidthClasses = WidthClasses(desktop: bool, tablet: bool, mobile: bool)

  function Classify(s: Screens): (c: WidthClasses)
    ensures c.desktop <==> s.lg
    ensures c.mobile <==> !s.md
    ensures !(c.tablet && c.desktop) && !(c.tablet && c.mobile)
    ensures c.desktop || c.tablet || c.mobile
    ensures Nested(s) ==> (c.desktop && !c.tablet && !c.mobile) || (!c.desktop && c.tablet && !c.mobile)
                          || (!c.desktop && !c.tablet && c.mobile)
  {
    WidthClasses(s.lg, s.md && !s.lg, !s.md)
  }

  /** The five parts of the bar that are shown or hidden. */
  datatype Shown = Shown(logoOnLeft: bool, titleOnLeft: bool, commonIcons: bool, userInfo: bool, hamburger: bool)

  function Flags(s: Screens, isSidebarOpen: bool): (f: Shown)
    ensures f.commonIcons <==> s.lg || isSidebarOpen
    ensures f.hamburger <==> (!s.md || !s.lg) && !isSidebarOpen
    ensures f.commonIcons || f.hamburger
    ensures Nested(s) ==> !(f.commonIcons && f.hamburger)
    ensures f.hamburger ==> !isSidebarOpen
    ensures f.logoOnLeft <==> !s.md && !isSidebarOpen
    ensures f.userInfo <==> s.md
    ensures f.titleOnLeft <==> s.lg
    ensures Nested(s) ==> !(f.logoOnLeft && f.titleOnLeft)
    ensures f.logoOnLeft ==> f.hamburger
  {
    var c := Classify(s);
    var mobileOrTablet := c.mobile || c.tablet;
    Shown(
      c.mobile && !isSidebarOpen,
      c.desktop,
      c.desktop || (mobileOrTablet && isSidebarOpen),
      !c.mobile,
      mobileOrTablet && !isSidebarOpen)
  }

  /** Without the nesting of real viewports (large but not medium) the icons and the
      hamburger are shown together and so are the logo and the title. */
  lemma UnnestedScreensOverlap()
    ensures var f := Flags(Screens(false, true), false);
            f.commonIcons && f.hamburger && f.logoOnLeft && f.titleOnLeft
  {
  }
}
