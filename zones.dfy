/**
 * The zone entity of the layout editor and the small geometry every
 * editor component shares: a zone is a rectangle in a 0..100 percentage
 * canvas with a stable id and a display number.
 */
module Zones {
  import opened Wrappers

  /** Width and height of the percentage canvas. */
  const CANVAS: real := 100.0
  /** Minimum width and height a dragged, resized or snapped zone keeps. */
  const MIN_SIZE: real := 5.0

  datatype Zone = Zone(id: string, x: real, y: real, width: real, height: real, number: int)

  datatype Point = Point(x: real, y: real)

  /** A saved position (the pre-drag x and y of a zone). */
  datatype Position = Position(x: real, y: real)

  /** The editing surface's pixel bounding rectangle. */
  datatype ContainerRect = ContainerRect(left: real, top: real, width: real, height: real)

  datatype SplitMode = Horizontal | Vertical

  function Right(z: Zone): real { z.x + z.width }

  function Bottom(z: Zone): real { z.y + z.height }

  function Area(z: Zone): real { z.width * z.height }

  /** The smaller and the larger of two values (`Math.min`/`Math.max`, and `min_by`/`max_by` on ordered `f64`). */
  function Min(a: real, b: real): (r: real)
    ensures r <= a && r <= b && (r == a || r == b)
  {
    if a <= b then a else b
  }

  function Max(a: real, b: real): (r: real)
    ensures r >= a && r >= b && (r == a || r == b)
  {
    if a >= b then a else b
  }

  function Abs(a: real): (r: real)
    ensures r >= 0.0 && (r == a || r == -a)
  {
    if a >= 0.0 then a else -a
  }

  /** `Math.max(0, Math.min(hi, v))`: the clamp every drag and snap step applies. */
  function ClampTo(v: real, hi: real): (r: real)
    ensures r >= 0.0
    ensures hi >= 0.0 ==> r <= hi
    ensures 0.0 <= v <= hi ==> r == v
  {
    Max(0.0, Min(hi, v))
  }

  /** The zone lies inside the canvas. */
  predicate InCanvas(z: Zone) {
    0.0 <= z.x && Right(z) <= CANVAS && 0.0 <= z.y && Bottom(z) <= CANVAS
  }

  /** A pixel distance converted to a percentage of a container dimension. */
  function PixelsToPercent(delta: real, size: real): real
    requires size > 0.0
  {
    delta / size * 100.0
  }

  /** A client coordinate converted to a percentage position inside the container. */
  function ClientToPercent(client: real, origin: real, size: real): real
    requires size > 0.0
  {
    PixelsToPercent(client - origin, size)
  }

  /** The closed rectangle of the zone contains the point. */
  predicate Contains(z: Zone, p: Point) {
    z.x <= p.x <= Right(z) && z.y <= p.y <= Bottom(z)
  }

  /** A nullable id counts as set only when present and non-empty, as JavaScript truthiness has it. */
  predicate IsSet(id: Option<string>) { id.Some? && id.value != "" }

  predicate UniqueIds(zones: seq<Zone>) {
    forall i, j :: 0 <= i < j < |zones| ==> zones[i].id != zones[j].id
  }

  predicate HasId(zones: seq<Zone>, id: string) {
    exists i :: 0 <= i < |zones| && zones[i].id == id
  }

  /** `zones.find(z => z.id === id)`: the first zone with that id. */
  function FindZone(zones: seq<Zone>, id: string): (r: Option<Zone>)
    ensures r.None? <==> !HasId(zones, id)
    ensures r.Some? ==> r.value in zones && r.value.id == id
    ensures r.Some? ==> exists i :: 0 <= i < |zones| && zones[i] == r.value && forall j :: 0 <= j < i ==> zones[j].id != id
  {
    if zones == [] then None
    else if zones[0].id == id then Some(zones[0])
    else
      var r := FindZone(zones[1..], id);
      if r.Some? then
        ghost var i :| 0 <= i < |zones[1..]| && zones[1..][i] == r.value && forall j :: 0 <= j < i ==> zones[1..][j].id != id;
        assert zones[i + 1] == r.value;
        r
      else
        assert forall i :: 1 <= i < |zones| ==> zones[i] == zones[1..][i - 1];
        r
  }

  /** `zones.filter(z => z.id !== id)`. */
  function RemoveId(zones: seq<Zone>, id: string): (r: seq<Zone>)
    ensures forall z :: z in r <==> z in zones && z.id != id
    ensures |r| <= |zones|
  {
    if zones == [] then []
    else if zones[0].id == id then RemoveId(zones[1..], id)
    else [zones[0]] + RemoveId(zones[1..], id)
  }

  /** `Math.max(...zones.map(z => z.number))` for a non-empty list. */
  function MaxNumber(zones: seq<Zone>): (r: int)
    requires |zones| > 0
    ensures forall z :: z in zones ==> z.number <= r
    ensures exists z :: z in zones && z.number == r
  {
    if |zones| == 1 then zones[0].number
    else
      var m := MaxNumber(zones[1..]);
      assert zones[1..][0] in zones;
      if zones[0].number >= m then zones[0].number else m
  }

  /** `zones.map(z => z.id === id ? f(z) : z)`: replace every zone carrying the id. */
  function ReplaceId(zones: seq<Zone>, id: string, z': Zone): (r: seq<Zone>)
    ensures |r| == |zones|
    ensures forall i :: 0 <= i < |zones| ==> r[i] == if zones[i].id == id then z' else zones[i]
  {
    seq(|zones|, i requires 0 <= i < |zones| => if zones[i].id == id then z' else zones[i])
  }

  /**
   * Index of the first zone that contains the point, skipping the zone
   * whose id is `skip` (the dragged zone) when one is given.
   */
  function FirstHit(zones: seq<Zone>, p: Point, skip: Option<string>): (r: Option<nat>)
    ensures r.Some? ==> r.value < |zones| && Contains(zones[r.value], p) && skip != Some(zones[r.value].id)
    ensures r.Some? ==> forall j :: 0 <= j < r.value ==> !(Contains(zones[j], p) && skip != Some(zones[j].id))
    ensures r.None? ==> forall j :: 0 <= j < |zones| ==> !(Contains(zones[j], p) && skip != Some(zones[j].id))
  {
    if zones == [] then None
    else if Contains(zones[0], p) && skip != Some(zones[0].id) then Some(0)
    else
      match FirstHit(zones[1..], p, skip)
      case None => None
      case Some(k) => Some(k + 1)
  }

  /** Every zone has a distinct number. */
  predicate DistinctNumbers(zones: seq<Zone>) {
    forall i, j :: 0 <= i < j < |zones| ==> zones[i].number != zones[j].number
  }

  /** The numbers are exactly 1..N: distinct and each within 1..N. */
  predicate NumberedOneToN(zones: seq<Zone>) {
    DistinctNumbers(zones) && forall i :: 0 <= i < |zones| ==> 1 <= zones[i].number <= |zones|
  }

  /** Filtering by id keeps ids and numbers distinct. */
  lemma RemoveIdKeepsDistinct(zones: seq<Zone>, id: string)
    ensures UniqueIds(zones) ==> UniqueIds(RemoveId(zones, id))
    ensures DistinctNumbers(zones) ==> DistinctNumbers(RemoveId(zones, id))
  {
    var r := RemoveId(zones, id);
    var idx := RemoveIdIndices(zones, id);
    forall i, j | 0 <= i < j < |r|
      ensures UniqueIds(zones) ==> r[i].id != r[j].id
      ensures DistinctNumbers(zones) ==> r[i].number != r[j].number
    {
      assert r[i] == zones[idx[i]] && r[j] == zones[idx[j]] && idx[i] < idx[j];
    }
  }

  /** Every index one further on. */
  function Shift(s: seq<nat>): (r: seq<nat>)
    ensures |r| == |s| && forall j :: 0 <= j < |s| ==> r[j] == s[j] + 1
  {
    if s == [] then [] else [s[0] + 1] + Shift(s[1..])
  }

  /** `r` is `zones` read at the strictly increasing indices `idx`. */
  predicate IndexesInto(r: seq<Zone>, zones: seq<Zone>, idx: seq<nat>) {
    && |idx| == |r|
    && (forall j :: 0 <= j < |idx| ==> idx[j] < |zones| && r[j] == zones[idx[j]])
    && (forall i, j :: 0 <= i < j < |idx| ==> idx[i] < idx[j])
  }

  /** Prepending a zone to the source shifts every index by one. */
  lemma ShiftIndexes(r: seq<Zone>, rest: seq<Zone>, z: Zone, tail: seq<nat>)
    requires IndexesInto(r, rest, tail)
    ensures IndexesInto(r, [z] + rest, Shift(tail))
  {
    var shifted := Shift(tail);
    forall j | 0 <= j < |shifted| ensures shifted[j] < |rest| + 1 && r[j] == ([z] + rest)[shifted[j]] {
      assert r[j] == rest[tail[j]];
    }
  }

  /** Keeping the prepended zone puts index 0 in front of the shifted indices. */
  lemma ConsIndexes(r: seq<Zone>, rest: seq<Zone>, z: Zone, tail: seq<nat>)
    requires IndexesInto(r, rest, tail)
    ensures IndexesInto([z] + r, [z] + rest, [0] + Shift(tail))
  {
    ShiftIndexes(r, rest, z, tail);
    var shifted := Shift(tail);
    var idx := [0] + shifted;
    forall j | 0 <= j < |idx| ensures idx[j] < |rest| + 1 && ([z] + r)[j] == ([z] + rest)[idx[j]] {
      if j > 0 {
        assert idx[j] == shifted[j - 1] && ([z] + r)[j] == r[j - 1];
      }
    }
  }

  /**
   * Filtering keeps the surviving zones in their original order: the
   * result is `zones` at strictly increasing indices.
   */
  lemma {:induction false} RemoveIdIndices(zones: seq<Zone>, id: string) returns (idx: seq<nat>)
    ensures |idx| == |RemoveId(zones, id)|
    ensures forall j :: 0 <= j < |idx| ==> idx[j] < |zones| && RemoveId(zones, id)[j] == zones[idx[j]]
    ensures forall i, j :: 0 <= i < j < |idx| ==> idx[i] < idx[j]
  {
    if zones == [] {
      idx := [];
    } else {
      var rest := zones[1..];
      var tail := RemoveIdIndices(rest, id);
      var kept := RemoveId(rest, id);
      assert IndexesInto(kept, rest, tail);
      assert zones == [zones[0]] + rest;
      if zones[0].id == id {
        ShiftIndexes(kept, rest, zones[0], tail);
        idx := Shift(tail);
        assert IndexesInto(RemoveId(zones, id), zones, idx);
      } else {
        ConsIndexes(kept, rest, zones[0], tail);
        idx := [0] + Shift(tail);
        assert RemoveId(zones, id) == [zones[0]] + kept;
        assert IndexesInto(RemoveId(zones, id), zones, idx);
      }
    }
  }

  /** Filtering out an id that no zone has changes nothing. */
  lemma {:induction false} RemoveIdAbsent(zones: seq<Zone>, id: string)
    requires !HasId(zones, id)
    ensures RemoveId(zones, id) == zones
  {
    if zones != [] {
      assert forall k :: 0 <= k < |zones[1..]| ==> zones[1..][k] == zones[k + 1];
      RemoveIdAbsent(zones[1..], id);
      assert zones == [zones[0]] + zones[1..];
    }
  }

  /** With unique ids, filtering out a present id removes exactly one zone. */
  lemma {:induction false} RemoveIdCount(zones: seq<Zone>, id: string)
    requires UniqueIds(zones)
    ensures |RemoveId(zones, id)| == if HasId(zones, id) then |zones| - 1 else |zones|
  {
    if !HasId(zones, id) {
      RemoveIdAbsent(zones, id);
    } else if zones[0].id == id {
      assert forall k :: 0 <= k < |zones[1..]| ==> zones[1..][k] == zones[k + 1];
      RemoveIdAbsent(zones[1..], id);
    } else {
      var k :| 0 <= k < |zones| && zones[k].id == id;
      assert zones[1..][k - 1].id == id;
      RemoveIdCount(zones[1..], id);
    }
  }

  /** `zones.map(z => z.id === id ? {...z, x: pos.x, y: pos.y} : z)`: move the zones carrying the id to a saved position. */
  function MoveTo(zones: seq<Zone>, id: string, pos: Position): (r: seq<Zone>)
    ensures |r| == |zones|
    ensures forall i :: 0 <= i < |zones| && zones[i].id != id ==> r[i] == zones[i]
    ensures forall i :: 0 <= i < |zones| && zones[i].id == id ==> r[i] == zones[i].(x := pos.x, y := pos.y)
  {
    seq(|zones|, i requires 0 <= i < |zones| => if zones[i].id == id then zones[i].(x := pos.x, y := pos.y) else zones[i])
  }

  /** Moving back to the position the zones had before undoes any move of them. */
  lemma MoveToUndo(zones: seq<Zone>, id: string, moved: Position, saved: Position)
    requires forall i :: 0 <= i < |zones| && zones[i].id == id ==> zones[i].x == saved.x && zones[i].y == saved.y
    ensures MoveTo(MoveTo(zones, id, moved), id, saved) == zones
  {
  }

  /** Moving an id that no zone carries changes nothing. */
  lemma MoveToAbsent(zones: seq<Zone>, id: string, pos: Position)
    requires !HasId(zones, id)
    ensures MoveTo(zones, id, pos) == zones
  {
  }

  /** With unique ids no zone occurs twice. */
  lemma {:induction false} UniqueIdsAtMostOnce(zones: seq<Zone>, z: Zone)
    requires UniqueIds(zones)
    ensures multiset(zones)[z] <= 1
  {
    if zones != [] {
      assert zones == [zones[0]] + zones[1..];
      UniqueIdsAtMostOnce(zones[1..], z);
      if zones[0] == z {
        assert z !in zones[1..] by {
          forall k | 0 <= k < |zones[1..]| ensures zones[1..][k] != z {
            assert zones[1..][k] == zones[k + 1];
          }
        }
      }
    }
  }

  /** A zone at two different positions occurs at least twice. */
  lemma TwiceCounted(zones: seq<Zone>, i: nat, j: nat)
    requires i < j < |zones| && zones[i] == zones[j]
    ensures multiset(zones)[zones[i]] >= 2
  {
    assert zones == zones[..j] + zones[j..];
    assert zones[i] in zones[..j];
    assert zones[j] in zones[j..];
  }

  /** Reordering a list with unique ids keeps the ids unique. */
  lemma UniqueIdsPermutation(zones: seq<Zone>, reordered: seq<Zone>)
    requires multiset(zones) == multiset(reordered) && UniqueIds(zones)
    ensures UniqueIds(reordered)
  {
    forall i, j | 0 <= i < j < |reordered|
      ensures reordered[i].id != reordered[j].id
    {
      if reordered[i] == reordered[j] {
        TwiceCounted(reordered, i, j);
        UniqueIdsAtMostOnce(zones, reordered[i]);
      } else {
        assert reordered[i] in multiset(zones) && reordered[j] in multiset(zones);
        var p :| 0 <= p < |zones| && zones[p] == reordered[i];
        var q :| 0 <= q < |zones| && zones[q] == reordered[j];
        assert p != q;
      }
    }
  }
}
