/**
 * The snap engine and the overlap resolver: edge coordinates of sibling
 * zones plus the canvas bounds are collected as snap points, each edge of
 * a candidate zone is pulled onto a point within 0.2, a 5% minimum size is
 * enforced, and a candidate that overlaps a sibling is nudged off it when
 * the nudge is smaller than the threshold.
 */
module ZoneSnap {
  import opened Zones

  const SNAP_THRESHOLD: real := 0.2

  /** The x snap lines (left and right edges) and the y snap lines (top and bottom edges). */
  datatype SnapPoints = SnapPoints(xs: seq<real>, ys: seq<real>)

  predicate StrictlySorted(s: seq<real>) {
    forall i, j :: 0 <= i < j < |s| ==> s[i] < s[j]
  }

  /** Left and right edges of every zone whose id is not `exclude`. */
  function XEdges(zones: seq<Zone>, exclude: string): set<real>
    decreases |zones|
  {
    if zones == [] then {}
    else
      var z := zones[|zones| - 1];
      XEdges(zones[..|zones| - 1], exclude) + (if z.id == exclude then {} else {z.x, Right(z)})
  }

  /** Top and bottom edges of every zone whose id is not `exclude`. */
  function YEdges(zones: seq<Zone>, exclude: string): set<real>
    decreases |zones|
  {
    if zones == [] then {}
    else
      var z := zones[|zones| - 1];
      YEdges(zones[..|zones| - 1], exclude) + (if z.id == exclude then {} else {z.y, Bottom(z)})
  }

  /** The edge sets hold exactly the edges of the zones that are not excluded. */
  lemma {:induction false} EdgesMembers(zones: seq<Zone>, exclude: string, v: real)
    ensures v in XEdges(zones, exclude) <==> exists z :: z in zones && z.id != exclude && (v == z.x || v == Right(z))
    ensures v in YEdges(zones, exclude) <==> exists z :: z in zones && z.id != exclude && (v == z.y || v == Bottom(z))
  {
    if zones != [] {
      var n := |zones| - 1;
      EdgesMembers(zones[..n], exclude, v);
      assert zones == zones[..n] + [zones[n]];
      assert forall w :: w in zones <==> w in zones[..n] || w == zones[n];
    }
  }

  /** Adds `v` to an ascending, duplicate-free list (the `Set.add` of the source, kept sorted). */
  function InsertPoint(s: seq<real>, v: real): seq<real>
  {
    if s == [] then [v]
    else if v < s[0] then [v] + s
    else if v == s[0] then s
    else [s[0]] + InsertPoint(s[1..], v)
  }

  /** Insertion adds exactly `v`. */
  lemma {:induction false} InsertPointMembers(s: seq<real>, v: real)
    ensures forall w :: w in InsertPoint(s, v) <==> w in s || w == v
  {
    if s != [] && v > s[0] {
      InsertPointMembers(s[1..], v);
      assert s == [s[0]] + s[1..];
    }
  }

  /** Insertion keeps the list ascending and duplicate-free. */
  lemma {:induction false} InsertPointSorted(s: seq<real>, v: real)
    requires StrictlySorted(s)
    ensures StrictlySorted(InsertPoint(s, v))
  {
    if s != [] && v > s[0] {
      var rest := InsertPoint(s[1..], v);
      InsertPointSorted(s[1..], v);
      InsertPointMembers(s[1..], v);
      forall k | 0 <= k < |rest|
        ensures s[0] < rest[k]
      {
        assert rest[k] in rest;
        if rest[k] != v {
          var j :| 0 <= j < |s[1..]| && s[1..][j] == rest[k];
          assert s[j + 1] == rest[k];
        }
      }
      var r := [s[0]] + rest;
      forall i, j | 0 <= i < j < |r|
        ensures r[i] < r[j]
      {
        if i > 0 {
          assert r[i] == rest[i - 1] && r[j] == rest[j - 1];
        }
      }
    } else if s != [] && v < s[0] {
      var r := [v] + s;
      forall i, j | 0 <= i < j < |r|
        ensures r[i] < r[j]
      {
        if i == 0 {
          assert s[0] <= s[j - 1];
        }
      }
    }
  }

  /** `getSnapPoints` as a function of the zone list, built zone by zone. */
  function SnapPointsOf(zones: seq<Zone>, exclude: string): SnapPoints
    decreases |zones|
  {
    if zones == [] then SnapPoints([0.0, CANVAS], [0.0, CANVAS])
    else
      var n := |zones| - 1;
      var p := SnapPointsOf(zones[..n], exclude);
      var z := zones[n];
      if z.id == exclude then p
      else SnapPoints(InsertPoint(InsertPoint(p.xs, z.x), Right(z)), InsertPoint(InsertPoint(p.ys, z.y), Bottom(z)))
  }

  /** The snap points are ascending and without duplicates. */
  lemma {:induction false} SnapPointsOfSorted(zones: seq<Zone>, exclude: string)
    ensures StrictlySorted(SnapPointsOf(zones, exclude).xs) && StrictlySorted(SnapPointsOf(zones, exclude).ys)
  {
    if zones != [] {
      var n := |zones| - 1;
      var p := SnapPointsOf(zones[..n], exclude);
      var z := zones[n];
      SnapPointsOfSorted(zones[..n], exclude);
      if z.id != exclude {
        InsertPointSorted(p.xs, z.x);
        InsertPointSorted(InsertPoint(p.xs, z.x), Right(z));
        InsertPointSorted(p.ys, z.y);
        InsertPointSorted(InsertPoint(p.ys, z.y), Bottom(z));
      }
    }
  }

  /** The snap points are 0 and 100 on both axes plus the edges of every zone other than the excluded one. */
  lemma {:induction false} SnapPointsOfMembers(zones: seq<Zone>, exclude: string)
    ensures forall w :: w in SnapPointsOf(zones, exclude).xs <==> w == 0.0 || w == CANVAS || w in XEdges(zones, exclude)
    ensures forall w :: w in SnapPointsOf(zones, exclude).ys <==> w == 0.0 || w == CANVAS || w in YEdges(zones, exclude)
  {
    if zones != [] {
      var n := |zones| - 1;
      var p := SnapPointsOf(zones[..n], exclude);
      var z := zones[n];
      SnapPointsOfMembers(zones[..n], exclude);
      if z.id != exclude {
        InsertPointMembers(p.xs, z.x);
        InsertPointMembers(InsertPoint(p.xs, z.x), Right(z));
        InsertPointMembers(p.ys, z.y);
        InsertPointMembers(InsertPoint(p.ys, z.y), Bottom(z));
      }
    }
  }

  /** `getSnapPoints`: fills the two point sets zone by zone. */
  method GetSnapPoints(zones: seq<Zone>, excludeZoneId: string) returns (p: SnapPoints)
    ensures StrictlySorted(p.xs) && StrictlySorted(p.ys)
    ensures forall w :: w in p.xs <==> w == 0.0 || w == CANVAS || w in XEdges(zones, excludeZoneId)
    ensures forall w :: w in p.ys <==> w == 0.0 || w == CANVAS || w in YEdges(zones, excludeZoneId)
    ensures p == SnapPointsOf(zones, excludeZoneId)
  {
    var xs: seq<real> := [0.0, CANVAS];
    var ys: seq<real> := [0.0, CANVAS];
    for i := 0 to |zones|
      invariant SnapPoints(xs, ys) == SnapPointsOf(zones[..i], excludeZoneId)
    {
      assert zones[..i + 1][..i] == zones[..i];
      var zone := zones[i];
      if zone.id != excludeZoneId {
        xs := InsertPoint(xs, zone.x);
        xs := InsertPoint(xs, zone.x + zone.width);
        ys := InsertPoint(ys, zone.y);
        ys := InsertPoint(ys, zone.y + zone.height);
      }
    }
    assert zones[..|zones|] == zones;
    p := SnapPoints(xs, ys);
    SnapPointsOfSorted(zones, excludeZoneId);
    SnapPointsOfMembers(zones, excludeZoneId);
  }

  /** The first point, in list order, within `threshold` of `value`; `value` itself when there is none. */
  function FirstWithin(value: real, points: seq<real>, threshold: real): (r: real)
    ensures r == value || (r in points && Abs(value - r) <= threshold)
    ensures (exists p :: p in points && Abs(value - p) <= threshold) ==> r in points && Abs(value - r) <= threshold
    ensures (forall p :: p in points ==> Abs(value - p) > threshold) ==> r == value
  {
    if points == [] then value
    else if Abs(value - points[0]) <= threshold then points[0]
    else
      assert forall p :: p in points ==> p == points[0] || p in points[1..];
      FirstWithin(value, points[1..], threshold)
  }

  /** With ascending points, the snapped value is the smallest point within the threshold (not the nearest). */
  lemma {:induction false} FirstWithinIsLeast(value: real, points: seq<real>, threshold: real)
    requires StrictlySorted(points)
    ensures forall p :: p in points && Abs(value - p) <= threshold ==> FirstWithin(value, points, threshold) <= p
  {
    if points != [] && Abs(value - points[0]) > threshold {
      FirstWithinIsLeast(value, points[1..], threshold);
      assert forall p :: p in points ==> p == points[0] || p in points[1..];
    }
  }

  /** The first point within the threshold need not be the nearest one: 10.15 snaps to 10.0 although 10.1 is closer. */
  lemma SnapIsNotNearest()
    ensures FirstWithin(10.15, [10.0, 10.1], SNAP_THRESHOLD) == 10.0
    ensures Abs(10.15 - 10.1) < Abs(10.15 - 10.0)
  {
  }

  /** `snapToPoint`: a loop over the points that returns at the first one within the threshold. */
  method SnapToPoint(value: real, snapPoints: seq<real>, threshold: real) returns (r: real)
    ensures r == FirstWithin(value, snapPoints, threshold)
    ensures r == value || (r in snapPoints && Abs(value - r) <= threshold)
  {
    for i := 0 to |snapPoints|
      invariant FirstWithin(value, snapPoints[i..], threshold) == FirstWithin(value, snapPoints, threshold)
    {
      assert snapPoints[i..][1..] == snapPoints[i + 1..];
      if Abs(value - snapPoints[i]) <= threshold {
        return snapPoints[i];
      }
    }
    return value;
  }

  /** The snapped left, right, top and bottom edges of a candidate zone. */
  datatype Edges = Edges(left: real, right: real, top: real, bottom: real)

  function SnappedEdges(zone: Zone, zones: seq<Zone>, excludeZoneId: string): Edges {
    var points := SnapPointsOf(zones, excludeZoneId);
    Edges(FirstWithin(zone.x, points.xs, SNAP_THRESHOLD),
          FirstWithin(Right(zone), points.xs, SNAP_THRESHOLD),
          FirstWithin(zone.y, points.ys, SNAP_THRESHOLD),
          FirstWithin(Bottom(zone), points.ys, SNAP_THRESHOLD))
  }

  /**
   * `snapZoneEdges`: snaps the four edges, raises width and height to the
   * 5% floor (keeping the right or bottom edge when it can), then clamps
   * the position into the canvas.
   */
  function SnapZoneEdges(zone: Zone, zones: seq<Zone>, excludeZoneId: string): (r: Zone)
    ensures r.id == zone.id && r.number == zone.number
    ensures r.width >= MIN_SIZE && r.height >= MIN_SIZE
    ensures r.x >= 0.0 && r.y >= 0.0
    ensures r.width <= CANVAS ==> Right(r) <= CANVAS
    ensures r.height <= CANVAS ==> Bottom(r) <= CANVAS
  {
    var e := SnappedEdges(zone, zones, excludeZoneId);
    var newWidth := e.right - e.left;
    var newHeight := e.bottom - e.top;
    var finalWidth := Max(newWidth, MIN_SIZE);
    var finalHeight := Max(newHeight, MIN_SIZE);
    var finalX := if finalWidth > newWidth then Max(0.0, e.right - finalWidth) else e.left;
    var finalY := if finalHeight > newHeight then Max(0.0, e.bottom - finalHeight) else e.top;
    zone.(x := ClampTo(finalX, CANVAS - finalWidth), y := ClampTo(finalY, CANVAS - finalHeight),
          width := finalWidth, height := finalHeight)
  }

  /** When the snapped edges are at least 5 apart and inside the canvas, the result has exactly those edges. */
  lemma SnapKeepsSnappedEdges(zone: Zone, zones: seq<Zone>, excludeZoneId: string)
    requires var e := SnappedEdges(zone, zones, excludeZoneId);
      e.right - e.left >= MIN_SIZE && e.bottom - e.top >= MIN_SIZE &&
      0.0 <= e.left && e.right <= CANVAS && 0.0 <= e.top && e.bottom <= CANVAS
    ensures var r := SnapZoneEdges(zone, zones, excludeZoneId); var e := SnappedEdges(zone, zones, excludeZoneId);
      r.x == e.left && Right(r) == e.right && r.y == e.top && Bottom(r) == e.bottom
  {
  }

  /** When the width had to be raised to 5, the snapped right edge is kept as long as x stays >= 0. */
  lemma SnapFloorKeepsFarEdges(zone: Zone, zones: seq<Zone>, excludeZoneId: string)
    ensures var r := SnapZoneEdges(zone, zones, excludeZoneId); var e := SnappedEdges(zone, zones, excludeZoneId);
      (e.right - e.left < MIN_SIZE && MIN_SIZE <= e.right <= CANVAS ==> r.width == MIN_SIZE && Right(r) == e.right) &&
      (e.bottom - e.top < MIN_SIZE && MIN_SIZE <= e.bottom <= CANVAS ==> r.height == MIN_SIZE && Bottom(r) == e.bottom)
  {
  }

  /** Each snapped edge is either the original edge or a snap point within 0.2 of it. */
  lemma SnappedEdgesNearSnapPoints(zone: Zone, zones: seq<Zone>, excludeZoneId: string)
    ensures var e := SnappedEdges(zone, zones, excludeZoneId); var p := SnapPointsOf(zones, excludeZoneId);
      (e.left == zone.x || (e.left in p.xs && Abs(zone.x - e.left) <= SNAP_THRESHOLD)) &&
      (e.right == Right(zone) || (e.right in p.xs && Abs(Right(zone) - e.right) <= SNAP_THRESHOLD)) &&
      (e.top == zone.y || (e.top in p.ys && Abs(zone.y - e.top) <= SNAP_THRESHOLD)) &&
      (e.bottom == Bottom(zone) || (e.bottom in p.ys && Abs(Bottom(zone) - e.bottom) <= SNAP_THRESHOLD))
  {
  }

  /** `zonesOverlap`: strict inequalities, so zones that only share an edge do not overlap. */
  predicate ZonesOverlap(a: Zone, b: Zone) {
    a.x < Right(b) && Right(a) > b.x && a.y < Bottom(b) && Bottom(a) > b.y
  }

  lemma ZonesOverlapSymmetric(a: Zone, b: Zone)
    ensures ZonesOverlap(a, b) <==> ZonesOverlap(b, a)
  {
  }

  /** Two zones touching along an edge do not overlap. */
  lemma SharedEdgeIsNotOverlap(a: Zone, b: Zone)
    requires Right(a) == b.x || Right(b) == a.x || Bottom(a) == b.y || Bottom(b) == a.y
    ensures !ZonesOverlap(a, b)
  {
  }

  /** The new x after trying to push the candidate off `other` horizontally. */
  function NudgeX(adj: Zone, other: Zone): (x: real)
    ensures x == adj.x ||
            (x == Right(other) && Abs(x - adj.x) < SNAP_THRESHOLD) ||
            (x == other.x - adj.width && Abs(x - adj.x) < SNAP_THRESHOLD)
    ensures var toRight, toLeft := Abs(adj.x - Right(other)), Abs(Right(adj) - other.x);
      (toRight < toLeft && toRight < SNAP_THRESHOLD ==> x == Right(other)) &&
      (!(toRight < toLeft && toRight < SNAP_THRESHOLD) && toLeft < SNAP_THRESHOLD ==> x == other.x - adj.width) &&
      (!(toRight < toLeft && toRight < SNAP_THRESHOLD) && toLeft >= SNAP_THRESHOLD ==> x == adj.x)
  {
    var distanceToRight := Abs(adj.x - Right(other));
    var distanceToLeft := Abs(Right(adj) - other.x);
    if distanceToRight < distanceToLeft && distanceToRight < SNAP_THRESHOLD then Right(other)
    else if distanceToLeft < SNAP_THRESHOLD then other.x - adj.width
    else adj.x
  }

  /** The new y after trying to push the candidate off `other` vertically. */
  function NudgeY(adj: Zone, other: Zone): (y: real)
    ensures y == adj.y ||
            (y == Bottom(other) && Abs(y - adj.y) < SNAP_THRESHOLD) ||
            (y == other.y - adj.height && Abs(y - adj.y) < SNAP_THRESHOLD)
    ensures var toBottom, toTop := Abs(adj.y - Bottom(other)), Abs(Bottom(adj) - other.y);
      (toBottom < toTop && toBottom < SNAP_THRESHOLD ==> y == Bottom(other)) &&
      (!(toBottom < toTop && toBottom < SNAP_THRESHOLD) && toTop < SNAP_THRESHOLD ==> y == other.y - adj.height) &&
      (!(toBottom < toTop && toBottom < SNAP_THRESHOLD) && toTop >= SNAP_THRESHOLD ==> y == adj.y)
  {
    var distanceToBottom := Abs(adj.y - Bottom(other));
    var distanceToTop := Abs(Bottom(adj) - other.y);
    if distanceToBottom < distanceToTop && distanceToBottom < SNAP_THRESHOLD then Bottom(other)
    else if distanceToTop < SNAP_THRESHOLD then other.y - adj.height
    else adj.y
  }

  /**
   * One pass of the overlap loop against one sibling. The axis checks of
   * the source are implied by `zonesOverlap`, so both nudges apply, and the
   * position is clamped back into the canvas afterwards.
   */
  function ResolveAgainst(adj: Zone, other: Zone): (r: Zone)
    ensures r.id == adj.id && r.number == adj.number && r.width == adj.width && r.height == adj.height
    ensures !ZonesOverlap(adj, other) ==> r == adj
    ensures ZonesOverlap(adj, other) ==>
      r.x == ClampTo(NudgeX(adj, other), CANVAS - adj.width) && r.y == ClampTo(NudgeY(adj, other), CANVAS - adj.height)
    ensures ZonesOverlap(adj, other) ==>
      (r.x >= 0.0 && r.y >= 0.0 &&
       (adj.width <= CANVAS ==> Right(r) <= CANVAS) && (adj.height <= CANVAS ==> Bottom(r) <= CANVAS))
  {
    if ZonesOverlap(adj, other) then
      adj.(x := ClampTo(NudgeX(adj, other), CANVAS - adj.width), y := ClampTo(NudgeY(adj, other), CANVAS - adj.height))
    else adj
  }

  /** What `preventOverlaps` computes: the candidate resolved against each sibling in list order. */
  function ResolveOverlaps(zone: Zone, zones: seq<Zone>, excludeZoneId: string): (r: Zone)
    ensures r.id == zone.id && r.number == zone.number && r.width == zone.width && r.height == zone.height
    decreases |zones|
  {
    if zones == [] then zone
    else
      var n := |zones| - 1;
      var adj := ResolveOverlaps(zone, zones[..n], excludeZoneId);
      if zones[n].id == excludeZoneId then adj else ResolveAgainst(adj, zones[n])
  }

  /** A candidate inside the canvas stays inside the canvas. */
  lemma {:induction false} ResolveOverlapsInCanvas(zone: Zone, zones: seq<Zone>, excludeZoneId: string)
    requires InCanvas(zone)
    ensures InCanvas(ResolveOverlaps(zone, zones, excludeZoneId))
  {
    if zones != [] {
      ResolveOverlapsInCanvas(zone, zones[..|zones| - 1], excludeZoneId);
    }
  }

  /** A candidate that overlaps no sibling is returned unchanged. */
  lemma {:induction false} ResolveOverlapsNoOverlap(zone: Zone, zones: seq<Zone>, excludeZoneId: string)
    requires forall o :: o in zones && o.id != excludeZoneId ==> !ZonesOverlap(zone, o)
    ensures ResolveOverlaps(zone, zones, excludeZoneId) == zone
  {
    if zones != [] {
      var n := |zones| - 1;
      assert forall o :: o in zones[..n] ==> o in zones;
      ResolveOverlapsNoOverlap(zone, zones[..n], excludeZoneId);
      assert zones[n] in zones;
    }
  }

  /** `preventOverlaps`: loops over the zones, adjusting a copy of the candidate. */
  method PreventOverlaps(zone: Zone, zones: seq<Zone>, excludeZoneId: string) returns (adjusted: Zone)
    ensures adjusted == ResolveOverlaps(zone, zones, excludeZoneId)
    ensures adjusted.id == zone.id && adjusted.number == zone.number
    ensures adjusted.width == zone.width && adjusted.height == zone.height
  {
    adjusted := zone;
    for i := 0 to |zones|
      invariant adjusted == ResolveOverlaps(zone, zones[..i], excludeZoneId)
    {
      assert zones[..i + 1][..i] == zones[..i];
      var other := zones[i];
      if other.id == excludeZoneId {
        continue;
      }
      if ZonesOverlap(adjusted, other) {
        var distanceToRight := Abs(adjusted.x - (other.x + other.width));
        var distanceToLeft := Abs((adjusted.x + adjusted.width) - other.x);
        if distanceToRight < distanceToLeft && distanceToRight < SNAP_THRESHOLD {
          adjusted := adjusted.(x := other.x + other.width);
        } else if distanceToLeft < SNAP_THRESHOLD {
          adjusted := adjusted.(x := other.x - adjusted.width);
        }
        var distanceToBottom := Abs(adjusted.y - (other.y + other.height));
        var distanceToTop := Abs((adjusted.y + adjusted.height) - other.y);
        if distanceToBottom < distanceToTop && distanceToBottom < SNAP_THRESHOLD {
          adjusted := adjusted.(y := other.y + other.height);
        } else if distanceToTop < SNAP_THRESHOLD {
          adjusted := adjusted.(y := other.y - adjusted.height);
        }
        adjusted := adjusted.(x := Max(0.0, Min(CANVAS - adjusted.width, adjusted.x)));
        adjusted := adjusted.(y := Max(0.0, Min(CANVAS - adjusted.height, adjusted.y)));
      }
    }
    assert zones[..|zones|] == zones;
  }

  /** Two full-height siblings whose left edges 10.0 and 10.1 lie 0.1 apart. */
  function IdempotenceSiblings(): seq<Zone> {
    [Zone("a", 0.0, 0.0, 10.0, 100.0, 1), Zone("b", 10.1, 0.0, 20.0, 100.0, 2)]
  }

  lemma IdempotenceSnapPoints()
    ensures SnapPointsOf(IdempotenceSiblings(), "z") == SnapPoints([0.0, 10.0, 10.1, 30.1, CANVAS], [0.0, CANVAS])
  {
    var siblings := IdempotenceSiblings();
    assert siblings[..1][..0] == [];
    assert InsertPoint([0.0, CANVAS], 0.0) == [0.0, CANVAS];
    assert InsertPoint([0.0, CANVAS], CANVAS) == [0.0, CANVAS];
    assert InsertPoint([0.0, CANVAS], 10.0) == [0.0, 10.0, CANVAS];
    assert SnapPointsOf(siblings[..1], "z") == SnapPoints([0.0, 10.0, CANVAS], [0.0, CANVAS]);
    InsertPointAfter([0.0, 10.0], [CANVAS], 10.1);
    assert [0.0, 10.0] + [CANVAS] == [0.0, 10.0, CANVAS];
    InsertPointAfter([0.0, 10.0, 10.1], [CANVAS], 30.1);
    assert [0.0, 10.0, 10.1] + [CANVAS] == [0.0, 10.0, 10.1, CANVAS];
    assert siblings[..|siblings| - 1] == siblings[..1];
    var p1 := SnapPointsOf(siblings[..1], "z");
    var b := siblings[1];
    assert SnapPointsOf(siblings, "z") == SnapPoints(InsertPoint(InsertPoint(p1.xs, b.x), Right(b)), InsertPoint(InsertPoint(p1.ys, b.y), Bottom(b)));
    assert p1.xs == [0.0, 10.0, CANVAS];
    assert p1.ys == [0.0, CANVAS];
    assert InsertPoint(p1.xs, b.x) == [0.0, 10.0, 10.1, CANVAS];
    assert InsertPoint(InsertPoint(p1.xs, b.x), Right(b)) == [0.0, 10.0, 10.1, 30.1, CANVAS];
    assert InsertPoint(InsertPoint(p1.ys, b.y), Bottom(b)) == [0.0, CANVAS];
  }

  lemma SnapOnceExample()
    ensures SnapZoneEdges(Zone("z", 10.25, 40.0, 30.0, 20.0, 3), IdempotenceSiblings(), "z") == Zone("z", 10.1, 40.0, 30.15, 20.0, 3)
  {
    IdempotenceSnapPoints();
    assert SnappedEdges(Zone("z", 10.25, 40.0, 30.0, 20.0, 3), IdempotenceSiblings(), "z") == Edges(10.1, 40.25, 40.0, 60.0);
  }

  lemma SnapTwiceExample()
    ensures SnapZoneEdges(Zone("z", 10.1, 40.0, 30.15, 20.0, 3), IdempotenceSiblings(), "z").x == 10.0
  {
    IdempotenceSnapPoints();
    assert SnappedEdges(Zone("z", 10.1, 40.0, 30.15, 20.0, 3), IdempotenceSiblings(), "z") == Edges(10.0, 40.25, 40.0, 60.0);
  }

  /**
   * Snapping twice can move an edge again: a left edge at 10.25 snaps to
   * 10.1, the first point within 0.2, and a second pass pulls it on to 10.0.
   */
  lemma SnapIsNotIdempotent()
    ensures var once := SnapZoneEdges(Zone("z", 10.25, 40.0, 30.0, 20.0, 3), IdempotenceSiblings(), "z");
      once.x == 10.1 && SnapZoneEdges(once, IdempotenceSiblings(), "z").x == 10.0
  {
    SnapOnceExample();
    SnapTwiceExample();
  }

  /** Inserting a point larger than every element of a prefix leaves that prefix in front. */
  lemma {:induction false} InsertPointAfter(prefix: seq<real>, rest: seq<real>, v: real)
    requires forall w :: w in prefix ==> w < v
    ensures InsertPoint(prefix + rest, v) == prefix + InsertPoint(rest, v)
  {
    if prefix != [] {
      assert prefix[0] in prefix;
      assert forall w :: w in prefix[1..] ==> w in prefix;
      assert (prefix + rest)[1..] == prefix[1..] + rest;
      InsertPointAfter(prefix[1..], rest, v);
      assert prefix == [prefix[0]] + prefix[1..];
    } else {
      assert prefix + rest == rest;
    }
  }
}
