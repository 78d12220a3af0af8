/**
 * The persisted zone-layout store: a list of layouts under the key
 * "layouts" and the active layout's id under "active_layout_id". Saving
 * upserts by id, deleting keeps every layout with a different id in order,
 * and lookup returns the first layout with the id.
 */
module LayoutStore {
  import opened Wrappers
  import Zones

  /** A saved layout: its id, display name, zones and the screen size it was made for. */
  datatype ZoneLayout = ZoneLayout(id: string, name: string, zones: seq<Zones.Zone>, screenWidth: Option<nat>, screenHeight: Option<nat>)

  /** The first index holding a layout with the id (`iter().position`). */
  function IndexOfId(ls: seq<ZoneLayout>, id: string): (r: Option<nat>)
    ensures r.Some? ==> r.value < |ls| && ls[r.value].id == id && forall j :: 0 <= j < r.value ==> ls[j].id != id
    ensures r.None? ==> forall j :: 0 <= j < |ls| ==> ls[j].id != id
  {
    if |ls| == 0 then None
    else if ls[0].id == id then Some(0)
    else match IndexOfId(ls[1..], id)
      case None => None
      case Some(k) => Some(k + 1)
  }

  /** The first layout with the id (`into_iter().find`). */
  function Find(ls: seq<ZoneLayout>, id: string): (r: Option<ZoneLayout>)
    ensures r.Some? ==> r.value in ls && r.value.id == id
    ensures r.None? <==> forall j :: 0 <= j < |ls| ==> ls[j].id != id
  {
    match IndexOfId(ls, id)
    case Some(i) => Some(ls[i])
    case None => None
  }

  /** The list after saving a layout: it replaces the first one with its id, or is appended. */
  function Upsert(ls: seq<ZoneLayout>, layout: ZoneLayout): (r: seq<ZoneLayout>)
    ensures layout in r && |ls| <= |r| <= |ls| + 1
  {
    match IndexOfId(ls, layout.id)
    case Some(i) => assert ls[i := layout][i] == layout; ls[i := layout]
    case None => assert (ls + [layout])[|ls|] == layout; ls + [layout]
  }

  /** The list after `retain(|l| l.id != id)`. */
  function WithoutId(ls: seq<ZoneLayout>, id: string): (r: seq<ZoneLayout>)
    ensures |r| <= |ls|
  {
    if |ls| == 0 then []
    else WithoutId(ls[..|ls| - 1], id) + (if ls[|ls| - 1].id != id then [ls[|ls| - 1]] else [])
  }

  /** The two keys of the store file; `None` is a missing key. */
  class ZoneLayoutStore {
    var layouts: Option<seq<ZoneLayout>>
    var activeLayoutId: Option<string>

    /** A store file with neither key. */
    constructor ()
      ensures layouts.None? && activeLayoutId.None?
    {
      layouts := None;
      activeLayoutId := None;
    }

    /** The stored list, with a missing key read as the empty list. */
    function Stored(): seq<ZoneLayout>
      reads this
    {
      if layouts.Some? then layouts.value else []
    }

    /** `get_all_zone_layouts`. */
    method GetAll() returns (r: seq<ZoneLayout>)
      ensures r == Stored()
      ensures layouts.None? ==> r == []
    {
      if layouts.Some? {
        r := layouts.value;
      } else {
        r := [];
      }
    }

    /** `save_zone_layout`: replace the first layout with the same id in place, or append. */
    method Save(layout: ZoneLayout)
      modifies this
      ensures layouts == Some(Upsert(old(Stored()), layout))
      ensures activeLayoutId == old(activeLayoutId)
    {
      var ls := if layouts.Some? then layouts.value else [];
      var i := 0;
      while i < |ls| && ls[i].id != layout.id
        invariant 0 <= i <= |ls|
        invariant forall j :: 0 <= j < i ==> ls[j].id != layout.id
      {
        i := i + 1;
      }
      if i < |ls| {
        assert IndexOfId(ls, layout.id) == Some(i);
        ls := ls[i := layout];
      } else {
        ls := ls + [layout];
      }
      layouts := Some(ls);
    }

    /** `delete_zone_layout`: with no list stored nothing changes; otherwise every layout with the id goes. */
    method Delete(id: string)
      modifies this
      ensures old(layouts).None? ==> layouts.None?
      ensures old(layouts).Some? ==> layouts == Some(WithoutId(old(layouts).value, id))
      ensures activeLayoutId == old(activeLayoutId)
    {
      if layouts.None? {
        return;
      }
      var ls := layouts.value;
      var kept: seq<ZoneLayout> := [];
      var i := 0;
      while i < |ls|
        invariant 0 <= i <= |ls|
        invariant kept == WithoutId(ls[..i], id)
      {
        assert ls[..i + 1][..i] == ls[..i];
        if ls[i].id != id {
          kept := kept + [ls[i]];
        }
        i := i + 1;
      }
      assert ls[..i] == ls;
      layouts := Some(kept);
    }

    /** `get_zone_layout`: the first layout with the id; nothing when no list is stored. */
    method Get(id: string) returns (r: Option<ZoneLayout>)
      ensures r == Find(Stored(), id)
      ensures r.Some? ==> r.value.id == id && layouts.Some? && r.value in layouts.value
      ensures r.None? ==> forall l :: l in Stored() ==> l.id != id
    {
      if layouts.None? {
        return None;
      }
      var ls := layouts.value;
      var i := 0;
      while i < |ls| && ls[i].id != id
        invariant 0 <= i <= |ls|
        invariant forall j :: 0 <= j < i ==> ls[j].id != id
      {
        i := i + 1;
      }
      if i < |ls| {
        assert IndexOfId(ls, id) == Some(i);
        r := Some(ls[i]);
      } else {
        r := None;
      }
    }

    /** `get_active_zone_layout_id`. */
    method GetActiveId() returns (r: Option<string>)
      ensures r == activeLayoutId
    {
      r := activeLayoutId;
    }

    /** `set_active_zone_layout_id`: `Some` stores the id, `None` deletes the key. */
    method SetActiveId(id: Option<string>)
      modifies this
      ensures activeLayoutId == id
      ensures layouts == old(layouts)
    {
      activeLayoutId := id;
    }
  }

  /** The first index with the id is determined by the layouts before it. */
  lemma IndexOfIdIs(ls: seq<ZoneLayout>, id: string, i: nat)
    requires i < |ls| && ls[i].id == id
    requires forall j :: 0 <= j < i ==> ls[j].id != id
    ensures IndexOfId(ls, id) == Some(i)
  {
  }

  /**
   * Saving a layout whose id is already present replaces the first such
   * layout at its index and changes nothing else; saving a new id appends it.
   */
  lemma UpsertShape(ls: seq<ZoneLayout>, layout: ZoneLayout)
    ensures var r := Upsert(ls, layout);
      IndexOfId(ls, layout.id).Some? ==>
        var i := IndexOfId(ls, layout.id).value;
        |r| == |ls| && r[i] == layout && forall j :: 0 <= j < |ls| && j != i ==> r[j] == ls[j]
    ensures var r := Upsert(ls, layout);
      IndexOfId(ls, layout.id).None? ==>
        |r| == |ls| + 1 && r[..|ls|] == ls && r[|ls|] == layout
  {
  }

  /** Right after a save, looking the id up gives the saved layout. */
  lemma FindAfterUpsert(ls: seq<ZoneLayout>, layout: ZoneLayout)
    ensures Find(Upsert(ls, layout), layout.id) == Some(layout)
  {
    var r := Upsert(ls, layout);
    match IndexOfId(ls, layout.id)
    case Some(i) =>
      assert r == ls[i := layout];
      IndexOfIdIs(r, layout.id, i);
    case None =>
      assert r == ls + [layout];
      IndexOfIdIs(r, layout.id, |ls|);
  }

  /** A save does not change what any other id looks up to. */
  lemma FindOtherAfterUpsert(ls: seq<ZoneLayout>, layout: ZoneLayout, id: string)
    requires id != layout.id
    ensures Find(Upsert(ls, layout), id) == Find(ls, id)
  {
    var r := Upsert(ls, layout);
    match IndexOfId(ls, id)
    case Some(k) =>
      assert r[k] == ls[k];
      assert forall j :: 0 <= j < k ==> r[j].id == ls[j].id || r[j] == layout;
      assert IndexOfId(r, id) == Some(k);
    case None =>
      assert forall j :: 0 <= j < |r| ==> r[j].id != id by {
        forall j | 0 <= j < |r| ensures r[j].id != id {
          if j < |ls| && r[j] != layout { assert r[j] == ls[j]; }
        }
      }
  }

  /** Saving again under the same id keeps one entry: the length does not grow. */
  lemma UpsertTwice(ls: seq<ZoneLayout>, first: ZoneLayout, second: ZoneLayout)
    requires first.id == second.id
    ensures Upsert(Upsert(ls, first), second) == Upsert(ls, second)
  {
    var r := Upsert(ls, first);
    match IndexOfId(ls, first.id)
    case Some(i) =>
      assert r == ls[i := first];
      IndexOfIdIs(r, first.id, i);
      assert r[i := second] == ls[i := second];
    case None =>
      assert r == ls + [first];
      IndexOfIdIs(r, first.id, |ls|);
      assert r[|ls| := second] == ls + [second];
  }

  /** What the delete keeps: exactly the layouts with a different id. */
  lemma {:induction false} WithoutIdMembers(ls: seq<ZoneLayout>, id: string)
    ensures forall l :: l in WithoutId(ls, id) <==> l in ls && l.id != id
  {
    if |ls| > 0 {
      var init := ls[..|ls| - 1];
      WithoutIdMembers(init, id);
      assert ls == init + [ls[|ls| - 1]];
    }
  }

  /** The delete keeps the relative order: it works piece by piece on a concatenation. */
  lemma {:induction false} WithoutIdConcat(a: seq<ZoneLayout>, b: seq<ZoneLayout>, id: string)
    ensures WithoutId(a + b, id) == WithoutId(a, id) + WithoutId(b, id)
    decreases |b|
  {
    if |b| > 0 {
      var init := b[..|b| - 1];
      WithoutIdConcat(a, init, id);
      assert (a + b)[..|a + b| - 1] == a + init;
      assert (a + b)[|a + b| - 1] == b[|b| - 1];
    } else {
      assert a + b == a;
    }
  }

  /** A list without the id is left as it is by the delete. */
  lemma {:induction false} WithoutIdAbsent(ls: seq<ZoneLayout>, id: string)
    requires Find(ls, id).None?
    ensures WithoutId(ls, id) == ls
  {
    if |ls| > 0 {
      var init := ls[..|ls| - 1];
      assert Find(init, id).None? by {
        forall j | 0 <= j < |init| ensures init[j].id != id {
          assert init[j] == ls[j];
        }
      }
      WithoutIdAbsent(init, id);
      assert init + [ls[|ls| - 1]] == ls;
    }
  }

  /** After a delete the id is gone, and every other id looks up as before. */
  lemma FindAfterRemoveId(ls: seq<ZoneLayout>, id: string, other: string)
    requires other != id
    ensures Find(WithoutId(ls, id), id).None?
    ensures Find(WithoutId(ls, id), other) == Find(ls, other)
  {
    WithoutIdMembers(ls, id);
    var r := WithoutId(ls, id);
    assert forall j :: 0 <= j < |r| ==> r[j] in r;
    FindOtherAfterRemoveId(ls, id, other);
  }

  lemma {:induction false} FindOtherAfterRemoveId(ls: seq<ZoneLayout>, id: string, other: string)
    requires other != id
    ensures Find(WithoutId(ls, id), other) == Find(ls, other)
    decreases |ls|
  {
    if |ls| > 0 {
      var init := ls[..|ls| - 1];
      var last := ls[|ls| - 1];
      var tail := if last.id != id then [last] else [];
      assert WithoutId(ls, id) == WithoutId(init, id) + tail;
      FindOtherAfterRemoveId(init, id, other);
      assert init + [last] == ls;
      FindAppend(init, [last], other);
      FindAppend(WithoutId(init, id), tail, other);
      assert Find(tail, other) == Find([last], other);
    }
  }

  /** Looking up in a concatenation: the first part wins. */
  lemma FindAppend(a: seq<ZoneLayout>, b: seq<ZoneLayout>, id: string)
    ensures Find(a + b, id) == if Find(a, id).Some? then Find(a, id) else Find(b, id)
  {
    var ab := a + b;
    match IndexOfId(a, id)
    case Some(i) =>
      assert forall j :: 0 <= j < i ==> ab[j] == a[j];
      assert ab[i] == a[i];
      IndexOfIdIs(ab, id, i);
    case None =>
      match IndexOfId(b, id)
      case Some(k) =>
        assert forall j :: 0 <= j < |a| + k ==> ab[j].id != id by {
          forall j | 0 <= j < |a| + k ensures ab[j].id != id {
            if j < |a| { assert ab[j] == a[j]; } else { assert ab[j] == b[j - |a|]; }
          }
        }
        assert ab[|a| + k] == b[k];
        assert IndexOfId(ab, id) == Some(|a| + k);
      case None =>
        assert forall j :: 0 <= j < |ab| ==> ab[j].id != id by {
          forall j | 0 <= j < |ab| ensures ab[j].id != id {
            if j < |a| { assert ab[j] == a[j]; } else { assert ab[j] == b[j - |a|]; }
          }
        }
  }
}
