/**
 * Stacking order of zones: zones are sorted by area, smallest first, and
 * the i-th zone of that order gets z-index 100 + (N - i), so a zone nested
 * inside a larger one is drawn above it and receives the pointer.
 */
module ZOrder {
  import opened Zones
  import opened Sorting

  const BASE_Z_INDEX: int := 100

  /** The comparator `a.area - b.area`, read as "a may come first". */
  predicate SmallerFirst(a: Zone, b: Zone) { Area(a) <= Area(b) }

  lemma SmallerFirstTotal()
    ensures TotalPreorder(SmallerFirst)
  {
  }

  predicate InAreaOrder(zones: seq<Zone>) {
    forall i, j :: 0 <= i < j < |zones| ==> Area(zones[i]) <= Area(zones[j])
  }

  /** The stable sort by ascending area. */
  function SortByArea(zones: seq<Zone>): (r: seq<Zone>)
    ensures multiset(r) == multiset(zones) && |r| == |zones|
    ensures InAreaOrder(r)
  {
    SmallerFirstTotal();
    SortBySorted(zones, SmallerFirst);
    SortBy(zones, SmallerFirst)
  }

  /**
   * The map filled by walking `sorted` front to back, the zone at index i
   * receiving 100 + (n - i); a later entry for the same id overwrites.
   */
  function ZIndexMap(sorted: seq<Zone>, n: int): map<string, int>
  {
    if sorted == [] then map[]
    else
      var last := |sorted| - 1;
      ZIndexMap(sorted[..last], n)[sorted[last].id := BASE_Z_INDEX + (n - last)]
  }

  /** Fills the z-index map as the editor and the overlay do. */
  method ZIndices(zones: seq<Zone>) returns (m: map<string, int>)
    ensures m == ZIndexMap(SortByArea(zones), |zones|)
  {
    var sorted := SortByArea(zones);
    m := FillZIndices(sorted, |zones|);
  }

  /** The `forEach` over the sorted zones. */
  method FillZIndices(sorted: seq<Zone>, n: int) returns (m: map<string, int>)
    ensures m == ZIndexMap(sorted, n)
  {
    m := map[];
    var i := 0;
    while i < |sorted|
      invariant 0 <= i <= |sorted|
      invariant m == ZIndexMap(sorted[..i], n)
    {
      assert sorted[..i + 1][..i] == sorted[..i];
      m := m[sorted[i].id := BASE_Z_INDEX + (n - i)];
      i := i + 1;
    }
    assert sorted[..i] == sorted;
  }

  /** Exactly the ids of the sorted zones are keys. */
  lemma {:induction false} ZIndexKeys(sorted: seq<Zone>, n: int)
    ensures ZIndexMap(sorted, n).Keys == set z | z in sorted :: z.id
  {
    if sorted != [] {
      var last := |sorted| - 1;
      ZIndexKeys(sorted[..last], n);
      assert sorted == sorted[..last] + [sorted[last]];
    }
  }

  /** Every value lies in [101 + n - |sorted|, 100 + n]. */
  lemma {:induction false} ZIndexRange(sorted: seq<Zone>, n: int)
    ensures forall id :: id in ZIndexMap(sorted, n) ==>
      BASE_Z_INDEX + 1 + n - |sorted| <= ZIndexMap(sorted, n)[id] <= BASE_Z_INDEX + n
  {
    if sorted != [] {
      ZIndexRange(sorted[..|sorted| - 1], n);
    }
  }

  /** No two ids share a z-index, even when ids repeat. */
  lemma {:induction false} ZIndexDistinct(sorted: seq<Zone>, n: int)
    ensures forall a, b :: a in ZIndexMap(sorted, n) && b in ZIndexMap(sorted, n) && a != b ==>
      ZIndexMap(sorted, n)[a] != ZIndexMap(sorted, n)[b]
  {
    if sorted != [] {
      var last := |sorted| - 1;
      var prev := ZIndexMap(sorted[..last], n);
      ZIndexDistinct(sorted[..last], n);
      ZIndexRange(sorted[..last], n);
      assert |sorted[..last]| == last;
      var m := ZIndexMap(sorted, n);
      assert m == prev[sorted[last].id := BASE_Z_INDEX + (n - last)];
      forall a, b | a in m && b in m && a != b ensures m[a] != m[b] {
        var newest := sorted[last].id;
        if a == newest {
          assert b in prev && m[b] == prev[b];
          assert prev[b] > BASE_Z_INDEX + (n - last);
        } else if b == newest {
          assert a in prev && m[a] == prev[a];
          assert prev[a] > BASE_Z_INDEX + (n - last);
        } else {
          assert m[a] == prev[a] && m[b] == prev[b];
          assert prev[a] != prev[b];
        }
      }
    }
  }

  /** With unique ids, the zone at index k of the order gets 100 + (n - k). */
  lemma {:induction false} ZIndexAt(sorted: seq<Zone>, n: int, k: nat)
    requires UniqueIds(sorted) && k < |sorted|
    ensures sorted[k].id in ZIndexMap(sorted, n)
    ensures ZIndexMap(sorted, n)[sorted[k].id] == BASE_Z_INDEX + (n - k)
  {
    var last := |sorted| - 1;
    if k < last {
      assert UniqueIds(sorted[..last]);
      assert sorted[..last][k] == sorted[k];
      ZIndexAt(sorted[..last], n, k);
      assert sorted[k].id != sorted[last].id;
    }
  }

  /** The z-indices of a layout: one per id, pairwise distinct, within [101, 100 + N]. */
  lemma ZIndicesBounds(zones: seq<Zone>)
    ensures var m := ZIndexMap(SortByArea(zones), |zones|);
      m.Keys == (set z | z in zones :: z.id) &&
      (forall id :: id in m ==> BASE_Z_INDEX + 1 <= m[id] <= BASE_Z_INDEX + |zones|) &&
      (forall a, b :: a in m && b in m && a != b ==> m[a] != m[b])
  {
    var sorted := SortByArea(zones);
    ZIndexKeys(sorted, |zones|);
    ZIndexRange(sorted, |zones|);
    ZIndexDistinct(sorted, |zones|);
    forall z | z in zones ensures z in sorted {
      assert z in multiset(zones);
    }
    forall z | z in sorted ensures z in zones {
      assert z in multiset(sorted);
    }
  }

  /** In an area-ordered list with unique ids, smaller area means a higher z-index. */
  lemma StacksHigherIn(sorted: seq<Zone>, n: int, ia: nat, ib: nat)
    requires UniqueIds(sorted) && InAreaOrder(sorted)
    requires ia < |sorted| && ib < |sorted| && Area(sorted[ia]) < Area(sorted[ib])
    ensures var m := ZIndexMap(sorted, n);
      sorted[ia].id in m && sorted[ib].id in m && m[sorted[ia].id] > m[sorted[ib].id]
  {
    ZIndexAt(sorted, n, ia);
    ZIndexAt(sorted, n, ib);
  }

  /** A zone of strictly smaller area is stacked strictly higher. */
  lemma SmallerAreaStacksHigher(zones: seq<Zone>, a: Zone, b: Zone)
    requires UniqueIds(zones) && a in zones && b in zones
    requires Area(a) < Area(b)
    ensures var m := ZIndexMap(SortByArea(zones), |zones|);
      a.id in m && b.id in m && m[a.id] > m[b.id]
  {
    var sorted := SortByArea(zones);
    UniqueIdsPermutation(zones, sorted);
    assert a in multiset(sorted) && b in multiset(sorted);
    var ia :| 0 <= ia < |sorted| && sorted[ia] == a;
    var ib :| 0 <= ib < |sorted| && sorted[ib] == b;
    StacksHigherIn(sorted, |zones|, ia, ib);
  }
}
