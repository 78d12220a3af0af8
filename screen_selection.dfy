/**
 * Which display a window is on (macOS): the display holding the largest
 * share of the window's frame, the first one on ties, and the first one
 * when no display holds any of it. The share is an `f64` quotient, so a
 * frame of zero area gives an infinity or NaN; `Float` keeps those cases.
 */
module ScreenSelection {
  import opened Wrappers
  import Zones

  /** A Core Graphics rectangle: origin and size. */
  datatype Rect = Rect(x: real, y: real, width: real, height: real)

  /** A display as the display enumeration reports it: `i32` origin, `u32` size. */
  datatype DisplayInfo = DisplayInfo(x: int, y: int, width: nat, height: nat)

  /** The dimensions handed to the snapping code. */
  datatype ScreenDimensions = ScreenDimensions(x: int, y: int, width: int, height: int)

  /** An `f64` result of a division: a finite value, an infinity, or NaN. */
  datatype Float = Num(v: real) | PosInf | NegInf | NaN

  /** `n / d` in floating point (the sign of a zero divisor is not modelled). */
  function Div(n: real, d: real): (r: Float)
    ensures d != 0.0 ==> r == Num(n / d)
    ensures d == 0.0 ==> (r == PosInf <==> n > 0.0) && (r == NegInf <==> n < 0.0) && (r == NaN <==> n == 0.0)
  {
    if d != 0.0 then Num(n / d)
    else if n > 0.0 then PosInf
    else if n < 0.0 then NegInf
    else NaN
  }

  /** `a > b` on `f64`: false whenever either side is NaN. */
  predicate Greater(a: Float, b: Float) {
    match a
    case NaN => false
    case NegInf => false
    case PosInf => b.Num? || b.NegInf?
    case Num(x) => b.NegInf? || (b.Num? && x > b.v)
  }

  /**
   * `rect_intersection`: the origin is the larger origin and each side runs
   * to the nearer far edge. The size is not clamped at zero.
   */
  function Intersection(r1: Rect, r2: Rect): (r: Rect)
    ensures r.x == Zones.Max(r1.x, r2.x) && r.y == Zones.Max(r1.y, r2.y)
    ensures r.x + r.width == Zones.Min(r1.x + r1.width, r2.x + r2.width)
    ensures r.y + r.height == Zones.Min(r1.y + r1.height, r2.y + r2.height)
  {
    var left := Zones.Max(r1.x, r2.x);
    var right := Zones.Min(r1.x + r1.width, r2.x + r2.width);
    var top := Zones.Max(r1.y, r2.y);
    var bottom := Zones.Min(r1.y + r1.height, r2.y + r2.height);
    Rect(left, top, right - left, bottom - top)
  }

  function ScreenRect(s: DisplayInfo): Rect {
    Rect(s.x as real, s.y as real, s.width as real, s.height as real)
  }

  function Area(r: Rect): real {
    r.width * r.height
  }

  /** `rect_contained_percentage`: the intersection's area over the frame's area. */
  function ContainedPercentage(rect: Rect, screen: DisplayInfo): (r: Float)
    ensures Area(rect) != 0.0 ==> r == Num(Area(Intersection(rect, ScreenRect(screen))) / Area(rect))
  {
    Div(Area(Intersection(rect, ScreenRect(screen))), Area(rect))
  }

  /** The loop state of `screen_with_rect`: the chosen index and the highest share so far. */
  datatype Choice = Choice(index: nat, highest: Float)

  /** The loop state after the first `n` displays. */
  function Chosen(rect: Rect, screens: seq<DisplayInfo>, n: nat): (c: Choice)
    requires n <= |screens|
    ensures n == 0 ==> c.index == 0
    ensures n > 0 ==> c.index < n
  {
    if n == 0 then Choice(0, Num(0.0))
    else
      var c := Chosen(rect, screens, n - 1);
      var p := ContainedPercentage(rect, screens[n - 1]);
      if Greater(p, c.highest) then Choice(n - 1, p) else c
  }

  /**
   * `screen_with_rect`: fails on an empty list; otherwise the display
   * chosen after scanning all of them.
   */
  method ScreenWithRect(rect: Rect, screens: seq<DisplayInfo>) returns (r: Result<DisplayInfo, string>)
    ensures r.Err? <==> |screens| == 0
    ensures r.Ok? ==> r.value == screens[Chosen(rect, screens, |screens|).index]
  {
    if |screens| == 0 {
      return Err("No screens found");
    }
    var returnScreen := screens[0];
    var highest := Num(0.0);
    var i := 0;
    while i < |screens|
      invariant 0 <= i <= |screens|
      invariant Chosen(rect, screens, i).highest == highest
      invariant screens[Chosen(rect, screens, i).index] == returnScreen
    {
      var p := ContainedPercentage(rect, screens[i]);
      if Greater(p, highest) {
        highest := p;
        returnScreen := screens[i];
      }
      i := i + 1;
    }
    return Ok(returnScreen);
  }

  /** A frame's share of a display, for a frame of non-zero area. */
  function Share(rect: Rect, s: DisplayInfo): real
    requires Area(rect) != 0.0
  {
    Area(Intersection(rect, ScreenRect(s))) / Area(rect)
  }

  /**
   * For a frame of non-zero area, the state after `n` displays: the highest
   * share is the largest positive share seen, at the first display reaching
   * it, and stays 0 at display 0 while no share was positive.
   */
  lemma {:induction false} ChosenPrefix(rect: Rect, screens: seq<DisplayInfo>, n: nat)
    requires Area(rect) != 0.0 && n <= |screens|
    ensures var c := Chosen(rect, screens, n);
      c.highest.Num? && c.highest.v >= 0.0 &&
      (forall j :: 0 <= j < n ==> Share(rect, screens[j]) <= c.highest.v) &&
      (c.highest.v == 0.0 ==> c.index == 0) &&
      (c.highest.v > 0.0 ==>
        c.index < n && Share(rect, screens[c.index]) == c.highest.v &&
        forall j :: 0 <= j < c.index ==> Share(rect, screens[j]) < c.highest.v)
  {
    if n > 0 {
      ChosenPrefix(rect, screens, n - 1);
    }
  }

  /**
   * For a frame of non-zero area the chosen display holds the largest
   * share, strictly more than every display before it; when no display
   * holds a positive share, the first display is chosen.
   */
  lemma ChosenIsFirstLargest(rect: Rect, screens: seq<DisplayInfo>)
    requires Area(rect) != 0.0 && |screens| > 0
    ensures var k := Chosen(rect, screens, |screens|).index;
      (forall j :: 0 <= j < |screens| ==> Share(rect, screens[j]) <= 0.0) ==> k == 0
    ensures var k := Chosen(rect, screens, |screens|).index;
      (exists j :: 0 <= j < |screens| && Share(rect, screens[j]) > 0.0) ==>
        k < |screens| && Share(rect, screens[k]) > 0.0 &&
        (forall j :: 0 <= j < |screens| ==> Share(rect, screens[j]) <= Share(rect, screens[k])) &&
        (forall j :: 0 <= j < k ==> Share(rect, screens[j]) < Share(rect, screens[k]))
  {
    ChosenPrefix(rect, screens, |screens|);
  }

  /**
   * For a frame of zero area every share is an infinity or NaN: the first
   * display the frame overlaps with positive area (a `+inf` share) is
   * chosen, or the first display when there is none.
   */
  lemma {:induction false} ChosenForEmptyFrame(rect: Rect, screens: seq<DisplayInfo>, n: nat)
    requires Area(rect) == 0.0 && n <= |screens|
    ensures var c := Chosen(rect, screens, n);
      (forall j :: 0 <= j < n ==> Area(Intersection(rect, ScreenRect(screens[j]))) <= 0.0) ==>
        c == Choice(0, Num(0.0))
    ensures var c := Chosen(rect, screens, n);
      forall k ::
        (0 <= k < n && Area(Intersection(rect, ScreenRect(screens[k]))) > 0.0 &&
         forall j :: 0 <= j < k ==> Area(Intersection(rect, ScreenRect(screens[j]))) <= 0.0)
        ==> c == Choice(k, PosInf)
  {
    if n > 0 {
      ChosenForEmptyFrame(rect, screens, n - 1);
    }
  }

  /** A frame inside a display has all of its area there. */
  lemma InsideMeansWhole(rect: Rect, screen: DisplayInfo)
    requires Area(rect) != 0.0
    requires var s := ScreenRect(screen);
      s.x <= rect.x && rect.x + rect.width <= s.x + s.width &&
      s.y <= rect.y && rect.y + rect.height <= s.y + s.height
    ensures Intersection(rect, ScreenRect(screen)) == rect
    ensures ContainedPercentage(rect, screen) == Num(1.0)
  {
    var i := Intersection(rect, ScreenRect(screen));
    assert i.x == rect.x && i.y == rect.y;
    assert i.width == rect.width && i.height == rect.height;
    assert i == rect;
    var a := Area(rect);
    assert a / a == 1.0;
  }

  /** The intersection does not depend on the order of its arguments. */
  lemma IntersectionCommutes(r1: Rect, r2: Rect)
    ensures Intersection(r1, r2) == Intersection(r2, r1)
  {
  }

  /**
   * Because the size is not clamped, a frame entirely to the left of and
   * above a display gets a negative width and height and so a positive area.
   */
  lemma DisjointGivesPositiveArea(r1: Rect, r2: Rect)
    requires r1.width >= 0.0 && r1.height >= 0.0 && r2.width >= 0.0 && r2.height >= 0.0
    requires r1.x + r1.width < r2.x && r1.y + r1.height < r2.y
    ensures var i := Intersection(r1, r2);
      i.width < 0.0 && i.height < 0.0 && Area(i) > 0.0
  {
    var i := Intersection(r1, r2);
    assert i.width == r1.x + r1.width - r2.x;
    assert i.height == r1.y + r1.height - r2.y;
    NegTimesNeg(i.width, i.height);
  }

  lemma NegTimesNeg(a: real, b: real)
    requires a < 0.0 && b < 0.0
    ensures a * b > 0.0
  {
    assert (-a) * (-b) > 0.0;
  }

  /** `as i32` on a `u32`: values from 2^31 on wrap to negatives. */
  function U32AsI32(n: nat): (r: int)
    requires n < 0x1_0000_0000
    ensures -0x8000_0000 <= r < 0x8000_0000
    ensures r % 0x1_0000_0000 == n
  {
    if n < 0x8000_0000 then n else n - 0x1_0000_0000
  }

  /** The dimensions of a display, with the size cast to `i32`. */
  function Dimensions(s: DisplayInfo): ScreenDimensions
    requires s.width < 0x1_0000_0000 && s.height < 0x1_0000_0000
  {
    ScreenDimensions(s.x, s.y, U32AsI32(s.width), U32AsI32(s.height))
  }

  predicate ValidDisplays(screens: seq<DisplayInfo>) {
    forall i :: 0 <= i < |screens| ==> screens[i].width < 0x1_0000_0000 && screens[i].height < 0x1_0000_0000
  }

  /**
   * `get_screen_dimensions_for_window`. The display list and the window's
   * frame are the results of the two system queries; the frame is only
   * consulted when there is more than one display.
   */
  method GetScreenDimensionsForWindow(displays: Result<seq<DisplayInfo>, string>, frame: Result<Rect, string>)
    returns (r: Result<ScreenDimensions, string>)
    requires displays.Ok? ==> ValidDisplays(displays.value)
    ensures displays.Err? ==> r == Err(displays.error)
    ensures displays.Ok? && |displays.value| == 0 ==> r.Err?
    ensures displays.Ok? && |displays.value| == 1 ==> r == Ok(Dimensions(displays.value[0]))
    ensures displays.Ok? && |displays.value| > 1 && frame.Err? ==> r == Err(frame.error)
    ensures displays.Ok? && |displays.value| > 1 && frame.Ok? ==>
      r == Ok(Dimensions(displays.value[Chosen(frame.value, displays.value, |displays.value|).index]))
  {
    if displays.Err? {
      return Err(displays.error);
    }
    var screens := displays.value;
    if |screens| == 0 {
      return Err("No screens found");
    }
    if |screens| == 1 {
      return Ok(Dimensions(screens[0]));
    }
    if frame.Err? {
      return Err(frame.error);
    }
    var screen := ScreenWithRect(frame.value, screens);
    match screen
    case Err(e) =>
      assert false;
      return Err(e);
    case Ok(s) =>
      return Ok(Dimensions(s));
  }
}
