/**
 * The small layout preview: its aspect ratio comes from the screen when
 * the screen's size is known, otherwise from the zones' bounding box; each
 * zone is drawn inset by a margin, smaller ones skipped, in zone-number
 * order.
 */
module PreviewCanvas {
  import opened Wrappers
  import opened Zones
  import opened Sorting

  const DEFAULT_ASPECT_RATIO: real := 16.0 / 9.0
  /** A bounding box at least this wide and tall counts as the full screen. */
  const FULL_SPAN: real := 99.0
  const MARGIN: real := 1.5
  /** The number label needs more than this inset width and height. */
  const LABEL_MIN: real := 10.0

  /** The bounding box of a list of zones, by its extreme coordinates. */
  datatype Box = Box(minX: real, minY: real, maxX: real, maxY: real)

  function ZoneBox(z: Zone): Box { Box(z.x, z.y, Right(z), Bottom(z)) }

  /** One step of the `forEach`: the box widened to take in a zone. */
  function Extend(b: Box, z: Zone): Box {
    Box(Min(b.minX, z.x), Min(b.minY, z.y), Max(b.maxX, Right(z)), Max(b.maxY, Bottom(z)))
  }

  /**
   * The box the loop ends with. The loop starts from infinite bounds, so
   * its first step yields the first zone's own box.
   */
  function BoxOf(zones: seq<Zone>): (b: Box)
    requires |zones| > 0
    ensures forall i :: 0 <= i < |zones| ==>
      b.minX <= zones[i].x && b.minY <= zones[i].y && Right(zones[i]) <= b.maxX && Bottom(zones[i]) <= b.maxY
  {
    if |zones| == 1 then ZoneBox(zones[0])
    else
      var prefix := zones[..|zones| - 1];
      var b := BoxOf(prefix);
      assert forall i :: 0 <= i < |prefix| ==> prefix[i] == zones[i];
      Extend(b, zones[|zones| - 1])
  }

  /** The box is tight: each of its four edges is an edge of some zone. */
  lemma {:induction false} BoxIsTight(zones: seq<Zone>)
    requires |zones| > 0
    ensures var b := BoxOf(zones);
      (exists i :: 0 <= i < |zones| && b.minX == zones[i].x) &&
      (exists i :: 0 <= i < |zones| && b.minY == zones[i].y) &&
      (exists i :: 0 <= i < |zones| && b.maxX == Right(zones[i])) &&
      (exists i :: 0 <= i < |zones| && b.maxY == Bottom(zones[i]))
  {
    if |zones| > 1 {
      var prefix := zones[..|zones| - 1];
      BoxIsTight(prefix);
      var last := |zones| - 1;
      assert forall i :: 0 <= i < |prefix| ==> prefix[i] == zones[i];
      var p := BoxOf(prefix);
      var i0 :| 0 <= i0 < |prefix| && p.minX == prefix[i0].x;
      var i1 :| 0 <= i1 < |prefix| && p.minY == prefix[i1].y;
      var i2 :| 0 <= i2 < |prefix| && p.maxX == Right(prefix[i2]);
      var i3 :| 0 <= i3 < |prefix| && p.maxY == Bottom(prefix[i3]);
      var b := BoxOf(zones);
      var j0 := if b.minX == zones[i0].x then i0 else last;
      var j1 := if b.minY == zones[i1].y then i1 else last;
      var j2 := if b.maxX == Right(zones[i2]) then i2 else last;
      var j3 := if b.maxY == Bottom(zones[i3]) then i3 else last;
      assert b.minX == zones[j0].x;
      assert b.minY == zones[j1].y;
      assert b.maxX == Right(zones[j2]);
      assert b.maxY == Bottom(zones[j3]);
    } else {
      assert BoxOf(zones) == ZoneBox(zones[0]);
    }
  }

  /** The bounding-box loop. */
  method BoundingBox(zones: seq<Zone>) returns (b: Box)
    requires |zones| > 0
    ensures b == BoxOf(zones)
  {
    b := ZoneBox(zones[0]);
    var i := 1;
    while i < |zones|
      invariant 1 <= i <= |zones|
      invariant b == BoxOf(zones[..i])
    {
      BoxOfStep(zones, i);
      b := Extend(b, zones[i]);
      i := i + 1;
    }
    assert zones[..i] == zones;
  }

  /** One more zone widens the box of a prefix by that zone. */
  lemma BoxOfStep(zones: seq<Zone>, i: nat)
    requires 1 <= i < |zones|
    ensures BoxOf(zones[..i + 1]) == Extend(BoxOf(zones[..i]), zones[i])
  {
    assert zones[..i + 1][..i] == zones[..i];
  }

  /** The ratio a bounding box calls for: 16/9 when degenerate or spanning the screen, else its own. */
  function BoxRatio(b: Box): real {
    var w := b.maxX - b.minX;
    var h := b.maxY - b.minY;
    if w > 0.0 && h > 0.0 then
      (if w >= FULL_SPAN && h >= FULL_SPAN then DEFAULT_ASPECT_RATIO else w / h)
    else DEFAULT_ASPECT_RATIO
  }

  /** Screen dimensions count only when both are present and positive. */
  predicate HasScreen(screenWidth: Option<real>, screenHeight: Option<real>) {
    screenWidth.Some? && screenHeight.Some? && screenWidth.value > 0.0 && screenHeight.value > 0.0
  }

  /** The ratio the preview takes. */
  function AspectRatio(zones: seq<Zone>, screenWidth: Option<real>, screenHeight: Option<real>): real {
    if HasScreen(screenWidth, screenHeight) then screenWidth.value / screenHeight.value
    else if |zones| == 0 then DEFAULT_ASPECT_RATIO
    else BoxRatio(BoxOf(zones))
  }

  /** The memoised ratio computation, with its bounding-box loop. */
  method ComputeAspectRatio(zones: seq<Zone>, screenWidth: Option<real>, screenHeight: Option<real>) returns (ratio: real)
    ensures ratio == AspectRatio(zones, screenWidth, screenHeight)
    ensures ratio > 0.0
  {
    AspectRatioCases(zones, screenWidth, screenHeight);
    if HasScreen(screenWidth, screenHeight) {
      return screenWidth.value / screenHeight.value;
    }
    if |zones| == 0 {
      return DEFAULT_ASPECT_RATIO;
    }
    var b := BoundingBox(zones);
    var layoutWidth := b.maxX - b.minX;
    var layoutHeight := b.maxY - b.minY;
    if layoutWidth > 0.0 && layoutHeight > 0.0 {
      if layoutWidth >= FULL_SPAN && layoutHeight >= FULL_SPAN {
        return DEFAULT_ASPECT_RATIO;
      }
      return layoutWidth / layoutHeight;
    }
    return DEFAULT_ASPECT_RATIO;
  }

  /** Which source the ratio comes from, case by case. */
  lemma AspectRatioCases(zones: seq<Zone>, screenWidth: Option<real>, screenHeight: Option<real>)
    ensures HasScreen(screenWidth, screenHeight) ==>
      AspectRatio(zones, screenWidth, screenHeight) == screenWidth.value / screenHeight.value
    ensures !HasScreen(screenWidth, screenHeight) && zones == [] ==>
      AspectRatio(zones, screenWidth, screenHeight) == DEFAULT_ASPECT_RATIO
    ensures !HasScreen(screenWidth, screenHeight) && zones != [] ==>
      var b := BoxOf(zones);
      var w := b.maxX - b.minX;
      var h := b.maxY - b.minY;
      AspectRatio(zones, screenWidth, screenHeight) ==
        (if w > 0.0 && h > 0.0 && !(w >= FULL_SPAN && h >= FULL_SPAN) then w / h else DEFAULT_ASPECT_RATIO)
    ensures AspectRatio(zones, screenWidth, screenHeight) > 0.0
  {
    if !HasScreen(screenWidth, screenHeight) && zones != [] {
      var b := BoxOf(zones);
      var w := b.maxX - b.minX;
      var h := b.maxY - b.minY;
      if w > 0.0 && h > 0.0 {
        assert w / h > 0.0;
      }
    }
  }

  /** A layout with a zone covering the whole canvas previews at 16/9 when the screen is unknown. */
  lemma FullLayoutIsWidescreen(zones: seq<Zone>, screenWidth: Option<real>, screenHeight: Option<real>, k: nat)
    requires !HasScreen(screenWidth, screenHeight)
    requires k < |zones| && zones[k].x == 0.0 && zones[k].y == 0.0 && zones[k].width == CANVAS && zones[k].height == CANVAS
    ensures AspectRatio(zones, screenWidth, screenHeight) == DEFAULT_ASPECT_RATIO
  {
    var b := BoxOf(zones);
    assert b.minX <= 0.0 && b.minY <= 0.0 && b.maxX >= CANVAS && b.maxY >= CANVAS;
  }

  /** A zone as the preview draws it: inset by the margin, with the number label when it fits. */
  datatype DrawnZone = DrawnZone(id: string, number: int, x: real, y: real, width: real, height: real, numberShown: Option<int>)

  /** The drawing of one zone, or none when the inset leaves no width or height. */
  function Drawn(z: Zone): (r: Option<DrawnZone>)
    ensures r.None? <==> z.width - 2.0 * MARGIN <= 0.0 || z.height - 2.0 * MARGIN <= 0.0
    ensures r.Some? ==>
      r.value.id == z.id && r.value.number == z.number && r.value.width > 0.0 && r.value.height > 0.0 &&
      z.x < r.value.x && r.value.x + r.value.width < Right(z) &&
      z.y < r.value.y && r.value.y + r.value.height < Bottom(z) &&
      r.value.x - z.x == MARGIN && Right(z) - (r.value.x + r.value.width) == MARGIN &&
      r.value.y - z.y == MARGIN && Bottom(z) - (r.value.y + r.value.height) == MARGIN
    ensures r.Some? ==> (r.value.numberShown.Some? <==> r.value.width > LABEL_MIN && r.value.height > LABEL_MIN)
    ensures r.Some? && r.value.numberShown.Some? ==> r.value.numberShown.value == z.number
  {
    var x := z.x + MARGIN;
    var y := z.y + MARGIN;
    var w := z.width - MARGIN * 2.0;
    var h := z.height - MARGIN * 2.0;
    if w <= 0.0 || h <= 0.0 then None
    else Some(DrawnZone(z.id, z.number, x, y, w, h, if w > LABEL_MIN && h > LABEL_MIN then Some(z.number) else None))
  }

  predicate ByNumber(a: Zone, b: Zone) { a.number <= b.number }

  /** The stable sort by ascending zone number. */
  function SortByNumber(zones: seq<Zone>): (r: seq<Zone>)
    ensures multiset(r) == multiset(zones) && |r| == |zones|
    ensures forall i, j :: 0 <= i < j < |r| ==> r[i].number <= r[j].number
  {
    assert TotalPreorder(ByNumber);
    SortBySorted(zones, ByNumber);
    SortBy(zones, ByNumber)
  }

  /**
   * What the preview renders: the zones sorted by number, each mapped to
   * its drawing or to nothing when it is too small.
   */
  function Render(zones: seq<Zone>): (r: seq<Option<DrawnZone>>)
    ensures |r| == |zones|
    ensures forall i, j :: 0 <= i < j < |r| && r[i].Some? && r[j].Some? ==> r[i].value.number <= r[j].value.number
  {
    var sorted := SortByNumber(zones);
    seq(|sorted|, i requires 0 <= i < |sorted| => Drawn(sorted[i]))
  }

  /** Every zone large enough to draw is drawn, and every drawing is of a layout zone. */
  lemma RenderDrawsEveryFittingZone(zones: seq<Zone>)
    ensures forall z :: z in zones && Drawn(z).Some? ==> Drawn(z) in Render(zones)
    ensures forall d :: d in Render(zones) && d.Some? ==> exists z :: z in zones && Drawn(z) == d
  {
    var sorted := SortByNumber(zones);
    var r := Render(zones);
    forall z | z in zones && Drawn(z).Some? ensures Drawn(z) in r {
      assert z in multiset(sorted);
      var i :| 0 <= i < |sorted| && sorted[i] == z;
      assert r[i] == Drawn(z);
    }
    forall d | d in r && d.Some? ensures exists z :: z in zones && Drawn(z) == d {
      var k :| 0 <= k < |r| && r[k] == d;
      assert sorted[k] in multiset(zones);
      assert Drawn(sorted[k]) == d;
    }
  }
}
