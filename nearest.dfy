/**
  The nearest-three fallback of the two transforms. Every sync point is
  inserted, in database order, into an ordered map keyed by its distance to
  the query direction, so that of several points at the same distance the
  last one inserted is the one the map keeps. The first three map entries,
  in increasing key order, are the three nearest points.

  A distance list is given as a sequence indexed like the sync points.
 */
module Nearest {
  import opened Wrappers

  /**
    The map after inserting the distances `ds` in order: every distance is a
    key, and each key maps to the last position holding it.
   */
  function NearestMapOf(ds: seq<real>): (m: map<real, nat>)
    ensures forall d :: d in m <==> d in ds
    ensures forall d :: d in m ==> m[d] < |ds| && ds[m[d]] == d
    ensures forall d :: d in m ==> forall j :: m[d] < j < |ds| ==> ds[j] != d
  {
    if ds == [] then map[]
    else NearestMapOf(ds[..|ds| - 1])[ds[|ds| - 1] := |ds| - 1]
  }

  /** `d` lies strictly above the lower bound, if there is one. */
  predicate Above(d: real, lower: Option<real>) {
    lower.None? || lower.value < d
  }

  /** The least distance strictly above `lower`: the map key an iterator reaches after `lower`. */
  function LeastAbove(ds: seq<real>, lower: Option<real>): (r: Option<real>)
    ensures r.Some? ==> r.value in ds && Above(r.value, lower)
    ensures r.Some? ==> forall j :: 0 <= j < |ds| && Above(ds[j], lower) ==> r.value <= ds[j]
    ensures r.None? <==> forall j :: 0 <= j < |ds| ==> !Above(ds[j], lower)
  {
    if ds == [] then None
    else
      var rest := LeastAbove(ds[1..], lower);
      if !Above(ds[0], lower) then rest
      else if rest.Some? && rest.value < ds[0] then rest
      else Some(ds[0])
  }

  /** Positions of the three chosen sync points, nearest first. */
  datatype Three = Three(first: nat, second: nat, third: nat)

  /** Position `i` holds the last occurrence of its distance. */
  predicate LastWith(ds: seq<real>, i: nat)
    requires i < |ds|
  {
    forall j :: i < j < |ds| ==> ds[j] != ds[i]
  }

  /** The list holds at least three distinct distances. */
  predicate ThreeDistinct(ds: seq<real>) {
    exists i, j, k :: 0 <= i < |ds| && 0 <= j < |ds| && 0 <= k < |ds| && ds[i] < ds[j] < ds[k]
  }

  /** Position `i` holds the least distance strictly above `lower`, and the last such position. */
  predicate ChosenAbove(ds: seq<real>, i: nat, lower: Option<real>)
    requires i < |ds|
  {
    Above(ds[i], lower) && LastWith(ds, i)
    && forall j :: 0 <= j < |ds| && Above(ds[j], lower) ==> ds[i] <= ds[j]
  }

  /**
    The first three entries of the map: the positions the three smallest
    distinct distances map to, in increasing key order. Without three
    distinct distances there is no third entry.
   */
  function NearestThreeOf(ds: seq<real>): (r: Option<Three>)
    ensures r.Some? ==> r.value.first < |ds| && r.value.second < |ds| && r.value.third < |ds|
  {
    var m := NearestMapOf(ds);
    var k1 := LeastAbove(ds, None);
    if k1.None? then None
    else
      var k2 := LeastAbove(ds, Some(k1.value));
      if k2.None? then None
      else
        var k3 := LeastAbove(ds, Some(k2.value));
        if k3.None? then None
        else Some(Three(m[k1.value], m[k2.value], m[k3.value]))
  }

  /**
    The chosen positions are, in turn, the nearest point, the nearest point
    farther than the first, and the nearest point farther than the second;
    each is the last position with its distance, so a later point at an equal
    distance wins.
   */
  lemma NearestThreeChosen(ds: seq<real>)
    ensures NearestThreeOf(ds).Some? ==>
      var t := NearestThreeOf(ds).value;
      ChosenAbove(ds, t.first, None)
      && ChosenAbove(ds, t.second, Some(ds[t.first]))
      && ChosenAbove(ds, t.third, Some(ds[t.second]))
  {
    var m := NearestMapOf(ds);
    var k1 := LeastAbove(ds, None);
    if k1.Some? {
      var k2 := LeastAbove(ds, Some(k1.value));
      if k2.Some? {
        var k3 := LeastAbove(ds, Some(k2.value));
        if k3.Some? {
          assert m[k1.value] < |ds| && ds[m[k1.value]] == k1.value;
          assert m[k2.value] < |ds| && ds[m[k2.value]] == k2.value;
          assert m[k3.value] < |ds| && ds[m[k3.value]] == k3.value;
        }
      }
    }
  }

  /** A choice is made exactly when the list holds three distinct distances. */
  lemma NearestThreeExists(ds: seq<real>)
    ensures NearestThreeOf(ds).None? <==> !ThreeDistinct(ds)
  {
    var k1 := LeastAbove(ds, None);
    if ThreeDistinct(ds) {
      var i, j, k :| 0 <= i < |ds| && 0 <= j < |ds| && 0 <= k < |ds| && ds[i] < ds[j] < ds[k];
      var k2 := LeastAbove(ds, Some(k1.value));
      assert Above(ds[j], Some(k1.value));
      var k3 := LeastAbove(ds, Some(k2.value));
      assert Above(ds[k], Some(k2.value));
    } else {
      NearestThreeChosen(ds);
    }
  }

  /**
    The selection as the plugin runs it: a loop inserting each distance into
    the map, then the first three keys in order and the positions they map to.
   */
  method NearestThree(ds: seq<real>) returns (r: Option<Three>)
    ensures r == NearestThreeOf(ds)
  {
    var nearest: map<real, nat> := map[];
    for i := 0 to |ds|
      invariant nearest == NearestMapOf(ds[..i])
    {
      assert ds[..i + 1][..i] == ds[..i];
      nearest := nearest[ds[i] := i];
    }
    assert ds[..|ds|] == ds;
    var k1 := LeastAbove(ds, None);
    if k1.None? {
      return None;
    }
    var k2 := LeastAbove(ds, Some(k1.value));
    if k2.None? {
      return None;
    }
    var k3 := LeastAbove(ds, Some(k2.value));
    if k3.None? {
      return None;
    }
    r := Some(Three(nearest[k1.value], nearest[k2.value], nearest[k3.value]));
  }
}
