/** Responsive layout arithmetic of the dashboard (pkg/tui/layout.go):
    integer clamping on the terminal size, returned as a value. */
module TuiLayout {
  import opened Common

  const MinWidth := 80
  const MinHeight := 24
  const SidebarMinWidth := 24
  const SidebarMaxWidth := 40
  const HeaderHeight := 3
  const StatusBarHeight := 2

  datatype Layout = Layout(
    width: int,
    height: int,
    sidebarWidth: int,
    contentWidth: int,
    contentHeight: int,
    headerHeight: int,
    statusBarHeight: int)

  /** The layout for a terminal of `w` x `h` cells. The size is first raised
      to the minimum, the sidebar takes a quarter of the width within
      [24, 40], and the content gets the rest minus four border columns. */
  function NewLayout(w: int, h: int): (l: Layout)
    ensures l.width == Max(w, MinWidth) && l.height == Max(h, MinHeight)
    ensures SidebarMinWidth <= l.sidebarWidth <= SidebarMaxWidth
    ensures l.sidebarWidth ==
      (if GoDiv(l.width, 4) < SidebarMinWidth then SidebarMinWidth
       else if GoDiv(l.width, 4) > SidebarMaxWidth then SidebarMaxWidth
       else GoDiv(l.width, 4))
    ensures SidebarMinWidth < l.sidebarWidth < SidebarMaxWidth ==> l.sidebarWidth * 4 <= l.width < l.sidebarWidth * 4 + 4
    ensures l.width < 96 ==> l.sidebarWidth == SidebarMinWidth
    ensures l.width >= 160 ==> l.sidebarWidth == SidebarMaxWidth
    ensures l.sidebarWidth + l.contentWidth + 4 == l.width
    ensures l.contentWidth >= 36
    ensures l.contentHeight == l.height - HeaderHeight - StatusBarHeight - 4
    ensures l.headerHeight == HeaderHeight && l.statusBarHeight == StatusBarHeight
  {
    var width := if w < MinWidth then MinWidth else w;
    var height := if h < MinHeight then MinHeight else h;
    var sw0 := GoDiv(width, 4);
    var sw1 := if sw0 < SidebarMinWidth then SidebarMinWidth else sw0;
    var sidebarWidth := if sw1 > SidebarMaxWidth then SidebarMaxWidth else sw1;
    Layout(width, height, sidebarWidth, width - sidebarWidth - 4,
           height - HeaderHeight - StatusBarHeight - 4, HeaderHeight, StatusBarHeight)
  }

  /** Rows between the header and the status bar. */
  function MainAreaHeight(l: Layout): (r: int)
    ensures l.headerHeight == HeaderHeight && l.statusBarHeight == StatusBarHeight ==> r == l.height - 5
    ensures l == NewLayout(l.width, l.height) ==> r == l.contentHeight + 4
  {
    l.height - l.headerHeight - l.statusBarHeight
  }

  /** The window is below the minimum of 80 columns by 24 rows: exactly
      the windows NewLayout would enlarge. */
  function IsTooSmall(l: Layout): (small: bool)
    ensures small <==> NewLayout(l.width, l.height).width != l.width || NewLayout(l.width, l.height).height != l.height
  {
    l.width < MinWidth || l.height < MinHeight
  }

  /** Two thirds of the width, capped at 60. */
  function CenteredWidth(l: Layout): (r: int)
    ensures r <= 60
    ensures l.width >= 90 ==> r == 60
    ensures 0 <= l.width < 90 ==> 3 * r <= 2 * l.width < 3 * r + 3
    ensures l.width < 0 ==> r <= 0
  {
    var width := GoDiv(l.width * 2, 3);
    if width > 60 then 60 else width
  }

  /** Half the width, clamped to [30, 50]. */
  function CenteredBoxWidth(l: Layout): (r: int)
    ensures 30 <= r <= 50
    ensures l.width < 62 ==> r == 30
    ensures l.width >= 100 ==> r == 50
    ensures 62 <= l.width < 100 ==> 2 * r <= l.width < 2 * r + 2
  {
    var width := GoDiv(l.width, 2);
    if width < 30 then 30 else if width > 50 then 50 else width
  }

  /** A layout built from any window size is never reported as too small,
      and its main area is five rows shorter than the window. */
  lemma NewLayoutIsNeverTooSmall(w: int, h: int)
    ensures !IsTooSmall(NewLayout(w, h))
    ensures MainAreaHeight(NewLayout(w, h)) == Max(h, MinHeight) - 5
    ensures NewLayout(w, h).contentHeight == MainAreaHeight(NewLayout(w, h)) - 4
  {
  }

  /** The sidebar is 24 columns on the minimum window, 25 at width 100 and
      40 from width 160 on. */
  lemma SidebarWidthSamples(w: int)
    requires w >= 160
    ensures NewLayout(80, 24).sidebarWidth == 24
    ensures NewLayout(100, 24).sidebarWidth == 25
    ensures NewLayout(w, 24).sidebarWidth == 40
  {
  }
}
