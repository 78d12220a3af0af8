/**
 * Where a keyboard snapping action puts a window: a rectangle computed
 * from the screen's size and, for the actions that resize or move the
 * window, from its current rectangle. Coordinates are Rust `i32`s, and
 * every division truncates toward zero.
 */
module WindowRects {
  import opened Wrappers
  import opened LayoutActions

  datatype WindowRect = WindowRect(x: int, y: int, width: int, height: int)

  datatype ScreenDimensions = ScreenDimensions(width: int, height: int)

  /** Rust's `/` on integers: the quotient truncated toward zero. */
  function TDiv(a: int, b: int): (q: int)
    requires b > 0
    ensures a >= 0 ==> 0 <= q && q * b <= a < q * b + b
    ensures a < 0 ==> q <= 0 && q * b - b < a <= q * b
  {
    if a >= 0 then a / b else -((-a) / b)
  }

  /** The rectangle the current-window actions start from: the window's own, or the whole screen. */
  function CurrentOrScreen(screen: ScreenDimensions, current: Option<WindowRect>): (r: WindowRect)
    ensures current.Some? ==> r == current.value
    ensures current.None? ==> r.x == 0 && r.y == 0 && r.width == screen.width && r.height == screen.height
  {
    match current
    case Some(c) => c
    case None => WindowRect(0, 0, screen.width, screen.height)
  }

  /**
   * `calculate_window_rect`. Its match has no arm for `ApplyZone` and
   * `ActivateLayout`; for those the result is `None`.
   */
  function CalculateWindowRect(action: LayoutAction, screen: ScreenDimensions, current: Option<WindowRect>): (r: Option<WindowRect>)
    ensures r.None? <==> action.ApplyZone? || action.ActivateLayout?
  {
    var w := screen.width;
    var h := screen.height;
    var c := CurrentOrScreen(screen, current);
    match action
    case LeftHalf => Some(WindowRect(0, 0, TDiv(w, 2), h))
    case RightHalf => Some(WindowRect(TDiv(w, 2), 0, TDiv(w, 2), h))
    case CenterHalf => Some(WindowRect(TDiv(w, 4), 0, TDiv(w, 2), h))
    case TopHalf => Some(WindowRect(0, 0, w, TDiv(h, 2)))
    case BottomHalf => Some(WindowRect(0, TDiv(h, 2), w, TDiv(h, 2)))
    case TopLeft => Some(WindowRect(0, 0, TDiv(w, 2), TDiv(h, 2)))
    case TopRight => Some(WindowRect(TDiv(w, 2), 0, TDiv(w, 2), TDiv(h, 2)))
    case BottomLeft => Some(WindowRect(0, TDiv(h, 2), TDiv(w, 2), TDiv(h, 2)))
    case BottomRight => Some(WindowRect(TDiv(w, 2), TDiv(h, 2), TDiv(w, 2), TDiv(h, 2)))
    case FirstThird => Some(WindowRect(0, 0, TDiv(w, 3), h))
    case CenterThird => Some(WindowRect(TDiv(w, 3), 0, TDiv(w, 3), h))
    case LastThird => Some(WindowRect(TDiv(2 * w, 3), 0, TDiv(w, 3), h))
    case FirstTwoThirds => Some(WindowRect(0, 0, TDiv(2 * w, 3), h))
    case LastTwoThirds => Some(WindowRect(TDiv(w, 3), 0, TDiv(2 * w, 3), h))
    case Maximize => Some(WindowRect(0, 0, w, h))
    case AlmostMaximize => Some(WindowRect(TDiv(w, 20), TDiv(h, 20), TDiv(18 * w, 20), TDiv(18 * h, 20)))
    case MaximizeHeight => Some(WindowRect(c.x, 0, c.width, h))
    case Smaller =>
      Some(WindowRect(c.x + TDiv(c.width, 20), c.y + TDiv(c.height, 20), TDiv(18 * c.width, 20), TDiv(18 * c.height, 20)))
    case Larger =>
      Some(WindowRect(c.x - TDiv(c.width, 20), c.y - TDiv(c.height, 20), TDiv(22 * c.width, 20), TDiv(22 * c.height, 20)))
    case Center => Some(WindowRect(TDiv(w - c.width, 2), TDiv(h - c.height, 2), c.width, c.height))
    case CenterProminently =>
      Some(WindowRect(TDiv(w - TDiv(9 * c.width, 10), 2), TDiv(h - TDiv(9 * c.height, 10), 2),
                      TDiv(9 * c.width, 10), TDiv(9 * c.height, 10)))
    case Restore => Some(c)
    case NextDisplay => Some(c)
    case PreviousDisplay => Some(c)
    case MoveLeft => Some(WindowRect(c.x - TDiv(w, 10), c.y, c.width, c.height))
    case MoveRight => Some(WindowRect(c.x + TDiv(w, 10), c.y, c.width, c.height))
    case MoveUp => Some(WindowRect(c.x, c.y - TDiv(h, 10), c.width, c.height))
    case MoveDown => Some(WindowRect(c.x, c.y + TDiv(h, 10), c.width, c.height))
    case FirstFourth => Some(WindowRect(0, 0, TDiv(w, 4), h))
    case SecondFourth => Some(WindowRect(TDiv(w, 4), 0, TDiv(w, 4), h))
    case ThirdFourth => Some(WindowRect(TDiv(2 * w, 4), 0, TDiv(w, 4), h))
    case LastFourth => Some(WindowRect(TDiv(3 * w, 4), 0, TDiv(w, 4), h))
    case FirstThreeFourths => Some(WindowRect(0, 0, TDiv(3 * w, 4), h))
    case LastThreeFourths => Some(WindowRect(TDiv(w, 4), 0, TDiv(3 * w, 4), h))
    case TopLeftSixth => Some(WindowRect(0, 0, TDiv(w, 3), TDiv(h, 2)))
    case TopCenterSixth => Some(WindowRect(TDiv(w, 3), 0, TDiv(w, 3), TDiv(h, 2)))
    case TopRightSixth => Some(WindowRect(TDiv(2 * w, 3), 0, TDiv(w, 3), TDiv(h, 2)))
    case BottomLeftSixth => Some(WindowRect(0, TDiv(h, 2), TDiv(w, 3), TDiv(h, 2)))
    case BottomCenterSixth => Some(WindowRect(TDiv(w, 3), TDiv(h, 2), TDiv(w, 3), TDiv(h, 2)))
    case BottomRightSixth => Some(WindowRect(TDiv(2 * w, 3), TDiv(h, 2), TDiv(w, 3), TDiv(h, 2)))
    case TopLeftThird => Some(WindowRect(0, 0, TDiv(w, 3), h))
    case TopRightThird => Some(WindowRect(TDiv(2 * w, 3), 0, TDiv(w, 3), h))
    case BottomLeftThird => Some(WindowRect(0, 0, TDiv(w, 3), h))
    case BottomRightThird => Some(WindowRect(TDiv(2 * w, 3), 0, TDiv(w, 3), h))
    case ApplyZone(_) => None
    case ActivateLayout(_) => None
  }

  /** The actions whose rectangle depends on the window's current one. */
  predicate UsesCurrent(action: LayoutAction) {
    action.MaximizeHeight? || action.Smaller? || action.Larger? || action.Center? || action.CenterProminently? ||
    action.Restore? || action.NextDisplay? || action.PreviousDisplay? ||
    action.MoveLeft? || action.MoveRight? || action.MoveUp? || action.MoveDown?
  }

  /** Every other action places the window by the screen alone. */
  lemma ScreenActionsIgnoreCurrent(action: LayoutAction, screen: ScreenDimensions, current: Option<WindowRect>)
    requires !UsesCurrent(action)
    ensures CalculateWindowRect(action, screen, current) == CalculateWindowRect(action, screen, None)
  {
  }

  /**
   * On a screen of non-negative size, every action that depends only on
   * the screen gives a rectangle inside it.
   */
  lemma ScreenActionsStayOnScreen(action: LayoutAction, screen: ScreenDimensions, current: Option<WindowRect>)
    requires screen.width >= 0 && screen.height >= 0
    requires !UsesCurrent(action) && !action.ApplyZone? && !action.ActivateLayout?
    ensures var r := CalculateWindowRect(action, screen, current).value;
      0 <= r.x && 0 <= r.y && 0 <= r.width && 0 <= r.height &&
      r.x + r.width <= screen.width && r.y + r.height <= screen.height
  {
    if action.FirstFourth? || action.SecondFourth? || action.ThirdFourth? || action.LastFourth? ||
       action.FirstThreeFourths? || action.LastThreeFourths? {
      FourthsStayOnScreen(action, screen, current);
    } else if action.TopLeftSixth? || action.TopCenterSixth? || action.TopRightSixth? ||
              action.BottomLeftSixth? || action.BottomCenterSixth? || action.BottomRightSixth? {
      SixthsStayOnScreen(action, screen, current);
    } else if action.TopLeftThird? || action.TopRightThird? || action.BottomLeftThird? || action.BottomRightThird? {
      CornerThirdsStayOnScreen(action, screen, current);
    } else {
      HalvesAndThirdsStayOnScreen(action, screen, current);
    }
  }

  /** The rectangle lies inside the screen. */
  predicate OnScreen(r: WindowRect, screen: ScreenDimensions) {
    0 <= r.x && 0 <= r.y && 0 <= r.width && 0 <= r.height &&
    r.x + r.width <= screen.width && r.y + r.height <= screen.height
  }

  /** The halves, quarters, thirds and the maximize actions stay on screen. */
  lemma HalvesAndThirdsStayOnScreen(action: LayoutAction, screen: ScreenDimensions, current: Option<WindowRect>)
    requires screen.width >= 0 && screen.height >= 0
    requires action.LeftHalf? || action.RightHalf? || action.CenterHalf? || action.TopHalf? || action.BottomHalf? ||
             action.TopLeft? || action.TopRight? || action.BottomLeft? || action.BottomRight? ||
             action.FirstThird? || action.CenterThird? || action.LastThird? ||
             action.FirstTwoThirds? || action.LastTwoThirds? || action.Maximize? || action.AlmostMaximize?
    ensures OnScreen(CalculateWindowRect(action, screen, current).value, screen)
  {
    FractionsFit(screen.width);
    FractionsFit(screen.height);
  }

  /** The column fourths stay on screen. */
  lemma FourthsStayOnScreen(action: LayoutAction, screen: ScreenDimensions, current: Option<WindowRect>)
    requires screen.width >= 0 && screen.height >= 0
    requires action.FirstFourth? || action.SecondFourth? || action.ThirdFourth? || action.LastFourth? ||
             action.FirstThreeFourths? || action.LastThreeFourths?
    ensures OnScreen(CalculateWindowRect(action, screen, current).value, screen)
  {
    FractionsFit(screen.width);
  }

  /** The sixths stay on screen. */
  lemma SixthsStayOnScreen(action: LayoutAction, screen: ScreenDimensions, current: Option<WindowRect>)
    requires screen.width >= 0 && screen.height >= 0
    requires action.TopLeftSixth? || action.TopCenterSixth? || action.TopRightSixth? ||
             action.BottomLeftSixth? || action.BottomCenterSixth? || action.BottomRightSixth?
    ensures OnScreen(CalculateWindowRect(action, screen, current).value, screen)
  {
    FractionsFit(screen.width);
    FractionsFit(screen.height);
  }

  /** The corner thirds stay on screen. */
  lemma CornerThirdsStayOnScreen(action: LayoutAction, screen: ScreenDimensions, current: Option<WindowRect>)
    requires screen.width >= 0 && screen.height >= 0
    requires action.TopLeftThird? || action.TopRightThird? || action.BottomLeftThird? || action.BottomRightThird?
    ensures OnScreen(CalculateWindowRect(action, screen, current).value, screen)
  {
    FractionsFit(screen.width);
    FractionsFit(screen.height);
  }

  /** The fractions of a non-negative length the actions combine never exceed it. */
  lemma FractionsFit(n: int)
    requires n >= 0
    ensures TDiv(n, 2) + TDiv(n, 2) <= n && TDiv(n, 4) + TDiv(n, 2) <= n
    ensures TDiv(n, 3) + TDiv(n, 3) <= TDiv(2 * n, 3) && TDiv(2 * n, 3) + TDiv(n, 3) <= n
    ensures TDiv(n, 4) + TDiv(n, 4) <= TDiv(2 * n, 4) && TDiv(2 * n, 4) + TDiv(n, 4) <= TDiv(3 * n, 4)
    ensures TDiv(3 * n, 4) + TDiv(n, 4) <= n
    ensures TDiv(n, 20) + TDiv(18 * n, 20) <= n
  {
  }

  /** Left and right halves have the same width and meet at the middle, at most one pixel short of the edge. */
  lemma HalvesAreAdjacent(screen: ScreenDimensions, current: Option<WindowRect>)
    requires screen.width >= 0
    ensures var l := CalculateWindowRect(LeftHalf, screen, current).value;
      var r := CalculateWindowRect(RightHalf, screen, current).value;
      l.x == 0 && l.x + l.width == r.x && l.width == r.width && l.height == r.height == screen.height &&
      0 <= screen.width - (r.x + r.width) <= 1
  {
  }

  /** Maximize covers the whole screen whatever the window was. */
  lemma MaximizeIsFullScreen(screen: ScreenDimensions, current: Option<WindowRect>)
    ensures CalculateWindowRect(Maximize, screen, current) == Some(WindowRect(0, 0, screen.width, screen.height))
  {
  }

  /**
   * Restore and the display changes hand back the current rectangle, and
   * without one the whole screen.
   */
  lemma PassThroughActions(action: LayoutAction, screen: ScreenDimensions, current: Option<WindowRect>)
    requires action.Restore? || action.NextDisplay? || action.PreviousDisplay?
    ensures current.Some? ==> CalculateWindowRect(action, screen, current) == current
    ensures current.None? ==> CalculateWindowRect(action, screen, current) == Some(WindowRect(0, 0, screen.width, screen.height))
  {
  }

  /** The moves shift the window by a tenth of the screen along one axis and keep its size. */
  lemma MovesKeepSize(action: LayoutAction, screen: ScreenDimensions, current: Option<WindowRect>)
    requires action.MoveLeft? || action.MoveRight? || action.MoveUp? || action.MoveDown?
    ensures var c := CurrentOrScreen(screen, current);
      var r := CalculateWindowRect(action, screen, current).value;
      r.width == c.width && r.height == c.height &&
      (action.MoveLeft? ==> r.x == c.x - TDiv(screen.width, 10) && r.y == c.y) &&
      (action.MoveRight? ==> r.x == c.x + TDiv(screen.width, 10) && r.y == c.y) &&
      (action.MoveUp? ==> r.y == c.y - TDiv(screen.height, 10) && r.x == c.x) &&
      (action.MoveDown? ==> r.y == c.y + TDiv(screen.height, 10) && r.x == c.x)
  {
  }

  /**
   * Center keeps the window's size; when the window fits the screen, the
   * margins left and right (and above and below) differ by at most one.
   */
  lemma CenterBalancesMargins(screen: ScreenDimensions, current: Option<WindowRect>)
    ensures var c := CurrentOrScreen(screen, current);
      var r := CalculateWindowRect(Center, screen, current).value;
      r.width == c.width && r.height == c.height &&
      (0 <= c.width <= screen.width ==> 0 <= r.x && 0 <= (screen.width - (r.x + r.width)) - r.x <= 1) &&
      (0 <= c.height <= screen.height ==> 0 <= r.y && 0 <= (screen.height - (r.y + r.height)) - r.y <= 1)
  {
  }

  /** Maximize-height keeps the window's column and spans the screen's height. */
  lemma MaximizeHeightKeepsColumn(screen: ScreenDimensions, current: Option<WindowRect>)
    ensures var c := CurrentOrScreen(screen, current);
      CalculateWindowRect(MaximizeHeight, screen, current) == Some(WindowRect(c.x, 0, c.width, screen.height))
  {
  }

  /** The bottom corner thirds are placed exactly like the top ones. */
  lemma BottomCornerThirdsEqualTopOnes(screen: ScreenDimensions, current: Option<WindowRect>)
    ensures CalculateWindowRect(BottomLeftThird, screen, current) == CalculateWindowRect(TopLeftThird, screen, current)
    ensures CalculateWindowRect(BottomRightThird, screen, current) == CalculateWindowRect(TopRightThird, screen, current)
  {
  }

  /**
   * Smaller keeps the window inside its old rectangle and Larger keeps the
   * old rectangle inside the new one.
   */
  lemma SmallerAndLargerNest(screen: ScreenDimensions, current: Option<WindowRect>)
    requires CurrentOrScreen(screen, current).width >= 0 && CurrentOrScreen(screen, current).height >= 0
    ensures var c := CurrentOrScreen(screen, current);
      var s := CalculateWindowRect(Smaller, screen, current).value;
      c.x <= s.x && s.x + s.width <= c.x + c.width && c.y <= s.y && s.y + s.height <= c.y + c.height
    ensures var c := CurrentOrScreen(screen, current);
      var l := CalculateWindowRect(Larger, screen, current).value;
      l.x <= c.x && c.x + c.width <= l.x + l.width && l.y <= c.y && c.y + c.height <= l.y + l.height
  {
    var c := CurrentOrScreen(screen, current);
    ScaleNests(c.width);
    ScaleNests(c.height);
  }

  /** A twentieth off each side of a length fits inside it, and a twentieth added to each side covers it. */
  lemma ScaleNests(n: int)
    requires n >= 0
    ensures TDiv(n, 20) + TDiv(18 * n, 20) <= n
    ensures TDiv(22 * n, 20) - TDiv(n, 20) >= n
  {
  }
}
