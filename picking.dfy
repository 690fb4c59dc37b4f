/**
 * Nearest-object picking (class `ObjSelector` of gtool.py): the object under
 * the cursor is the candidate of least distance, provided that distance is
 * below a radius of 20 pixels converted to geometric units.
 */
module Picking {
  import opened Wrappers
  import opened Scene

  /** The picking radius in pixels (`find_radius_pix`). */
  const FindRadiusPix: real := 20.0

  /** The picking radius in geometric units at the given zoom (`_update_find_radius`). */
  function FindRadius(scale: real): (r: real)
    requires scale != 0.0
    ensures r * scale == FindRadiusPix
  {
    FindRadiusPix / scale
  }

  /** Zooming in (a smaller positive scale) never shrinks the picking radius. */
  lemma FindRadiusAntitone(s1: real, s2: real)
    requires 0.0 < s1 <= s2
    ensures FindRadius(s2) <= FindRadius(s1)
  {
    var r1, r2 := FindRadius(s1), FindRadius(s2);
    assert r2 > 0.0;
    assert r2 * s1 <= r2 * s2 == r1 * s1;
  }

  /** An optional candidate filter (`filter_f`); `None` lets everything through. */
  predicate Passes(filter: Option<Gi -> bool>, g: Gi)
  {
    filter.None? || filter.value(g)
  }

  /** The candidates that pass the filter, in their original order. */
  function Filtered(l: seq<Gi>, filter: Option<Gi -> bool>): (r: seq<Gi>)
    ensures |r| <= |l|
    ensures forall g :: g in r <==> g in l && Passes(filter, g)
  {
    if l == [] then []
    else (if Passes(filter, l[0]) then [l[0]] else []) + Filtered(l[1..], filter)
  }

  /** Filtering distributes over concatenation, so it keeps the relative order. */
  lemma {:induction false} FilteredAppend(a: seq<Gi>, b: seq<Gi>, filter: Option<Gi -> bool>)
    ensures Filtered(a + b, filter) == Filtered(a, filter) + Filtered(b, filter)
  {
    if a == [] {
      assert a + b == b;
    } else {
      assert (a + b)[1..] == a[1..] + b;
      FilteredAppend(a[1..], b, filter);
    }
  }

  /**
   * The position Python's `min(..., key=...)` returns: it scans left to right
   * and replaces its current best only by a strictly smaller distance, so the
   * result is a minimum and no earlier candidate is as close.
   */
  function ArgMin(c: seq<Gi>, dist: (Coor, Gi) -> real, coor: Coor): (i: nat)
    requires |c| > 0
    ensures i < |c|
    ensures forall j :: 0 <= j < |c| ==> dist(coor, c[i]) <= dist(coor, c[j])
    ensures forall j :: 0 <= j < i ==> dist(coor, c[i]) < dist(coor, c[j])
  {
    if |c| == 1 then 0
    else
      var k := ArgMin(c[..|c| - 1], dist, coor);
      if dist(coor, c[|c| - 1]) < dist(coor, c[k]) then |c| - 1 else k
  }

  /**
   * `coor_to_obj`: the filtered candidate nearest to `coor` (`dist` gives each
   * candidate's distance from it), or `None` when there is no candidate or
   * the nearest one is not strictly inside `radius`. Ties go to the earliest
   * candidate.
   */
  function CoorToObj(c: seq<Gi>, dist: (Coor, Gi) -> real, coor: Coor, filter: Option<Gi -> bool>, radius: real): (r: Option<Gi>)
    ensures r.None? <==> forall g :: g in c && Passes(filter, g) ==> dist(coor, g) >= radius
    ensures r.Some? ==> r.value in c && Passes(filter, r.value) && dist(coor, r.value) < radius
    ensures r.Some? ==> forall g :: g in c && Passes(filter, g) ==> dist(coor, r.value) <= dist(coor, g)
    ensures r.Some? ==> exists i :: 0 <= i < |Filtered(c, filter)| && Filtered(c, filter)[i] == r.value &&
                          forall j :: 0 <= j < i ==> dist(coor, Filtered(c, filter)[j]) > dist(coor, r.value)
  {
    var f := Filtered(c, filter);
    // `min` falls back to the default `(0, None, None)` on an empty sequence
    if |f| == 0 then
      None
    else
      var i := ArgMin(f, dist, coor);
      assert f[i] in f;
      assert f[i] in c && Passes(filter, f[i]);
      assert 0 <= i < |f| && forall j :: 0 <= j < i ==> dist(coor, f[j]) > dist(coor, f[i]);
      assert forall g :: g in c && Passes(filter, g) ==> exists j :: 0 <= j < |f| && f[j] == g;
      if dist(coor, f[i]) >= radius then None else Some(f[i])
  }

  /** A larger radius never loses a pick, and it picks the same object. */
  lemma CoorToObjRadiusMonotone(c: seq<Gi>, dist: (Coor, Gi) -> real, coor: Coor, filter: Option<Gi -> bool>, r1: real, r2: real)
    requires r1 <= r2
    requires CoorToObj(c, dist, coor, filter, r1).Some?
    ensures CoorToObj(c, dist, coor, filter, r2) == CoorToObj(c, dist, coor, filter, r1)
  {
  }

  /** The typed queries `coor_to_point`, `coor_to_line`, `coor_to_circle` and `coor_to_cl`. */
  datatype Selector = PointSel | LineSel | CircleSel | ClSel

  /** The candidate list a typed query searches; lines come before circles in `coor_to_cl`. */
  function Candidates(view: View, sel: Selector): seq<Gi>
  {
    match sel
    case PointSel => view.points
    case LineSel => view.lines
    case CircleSel => view.circles
    case ClSel => view.lines + view.circles
  }

  /** One typed query at cursor `coor`, with the radius derived from the current zoom. */
  function CoorTo(view: View, sel: Selector, coor: Coor, filter: Option<Gi -> bool>): Option<Gi>
    requires view.scale != 0.0
  {
    CoorToObj(Candidates(view, sel), view.dist, coor, filter, FindRadius(view.scale))
  }

  /** A typed query finds only candidates of its own kind that pass the filter and lie within the radius. */
  lemma CoorToSound(view: View, sel: Selector, coor: Coor, filter: Option<Gi -> bool>)
    requires view.scale != 0.0
    ensures var r := CoorTo(view, sel, coor, filter);
            r.Some? ==> r.value in Candidates(view, sel) && Passes(filter, r.value) &&
                        view.dist(coor, r.value) < FindRadius(view.scale)
  {
  }

  /**
   * The loop of `coor_to_attempts`: the result of the first selector in
   * `sels` for which `query` finds something, or `None` if it finds nothing
   * for any of them.
   */
  function FirstFound(query: Selector -> Option<Gi>, sels: seq<Selector>): (r: Option<Gi>)
    ensures r.None? <==> forall i :: 0 <= i < |sels| ==> query(sels[i]).None?
    ensures r.Some? ==> exists i :: 0 <= i < |sels| && r == query(sels[i]) &&
                          forall j :: 0 <= j < i ==> query(sels[j]).None?
  {
    if sels == [] then None
    else if query(sels[0]).Some? then query(sels[0])
    else
      var rest := FirstFound(query, sels[1..]);
      assert forall i :: 1 <= i < |sels| ==> sels[i] == sels[1..][i - 1];
      rest
  }

  /** `coor_to_attempts`: the typed queries in `sels`, in order, all with the same filter. */
  function CoorToAttempts(view: View, coor: Coor, sels: seq<Selector>, filter: Option<Gi -> bool>): (r: Option<Gi>)
    requires view.scale != 0.0
    ensures r.None? <==> forall i :: 0 <= i < |sels| ==> CoorTo(view, sels[i], coor, filter).None?
    ensures r.Some? ==> exists i :: 0 <= i < |sels| && r == CoorTo(view, sels[i], coor, filter) &&
                          forall j :: 0 <= j < i ==> CoorTo(view, sels[j], coor, filter).None?
  {
    FirstFound(sel => CoorTo(view, sel, coor, filter), sels)
  }

  /**
   * The two-query chain `coor_to_pcl`, `coor_to_pl` and `coor_to_pc` use:
   * the `first` query's result if it finds something, else the `second`'s.
   */
  function Either(view: View, coor: Coor, first: Selector, second: Selector, filter: Option<Gi -> bool>): Option<Gi>
    requires view.scale != 0.0
  {
    var r := CoorTo(view, first, coor, filter);
    if r.Some? then r else CoorTo(view, second, coor, filter)
  }

  /** On two selectors, the loop returns the first one's result unless it is `None`. */
  lemma FirstFoundPair(query: Selector -> Option<Gi>, first: Selector, second: Selector)
    ensures FirstFound(query, [first, second]) == if query(first).Some? then query(first) else query(second)
  {
    var sels := [first, second];
    assert sels[1..] == [second] && sels[1..][1..] == [];
  }

  /** A two-query chain is `coor_to_attempts` with those two queries. */
  lemma EitherIsAttempts(view: View, coor: Coor, first: Selector, second: Selector, filter: Option<Gi -> bool>)
    requires view.scale != 0.0
    ensures Either(view, coor, first, second, filter) == CoorToAttempts(view, coor, [first, second], filter)
  {
    var q := sel => CoorTo(view, sel, coor, filter);
    FirstFoundPair(q, first, second);
    assert CoorToAttempts(view, coor, [first, second], filter) == FirstFound(q, [first, second]);
  }

  /** `coor_to_pcl`: a point if one is within the radius, otherwise a line or circle. */
  function CoorToPcl(view: View, coor: Coor, filter: Option<Gi -> bool>): Option<Gi>
    requires view.scale != 0.0
  {
    Either(view, coor, PointSel, ClSel, filter)
  }

  /** `coor_to_pl`: a point if one is within the radius, otherwise a line. */
  function CoorToPl(view: View, coor: Coor, filter: Option<Gi -> bool>): Option<Gi>
    requires view.scale != 0.0
  {
    Either(view, coor, PointSel, LineSel, filter)
  }

  /** `coor_to_pc`: a point if one is within the radius, otherwise a circle. */
  function CoorToPc(view: View, coor: Coor, filter: Option<Gi -> bool>): Option<Gi>
    requires view.scale != 0.0
  {
    Either(view, coor, PointSel, CircleSel, filter)
  }

  /** What `coor_to_pcl` returns is a selectable point, line or circle within the radius. */
  lemma PclFindsSelectable(view: View, coor: Coor, filter: Option<Gi -> bool>)
    requires view.scale != 0.0
    requires CoorToPcl(view, coor, filter).Some?
    ensures var g := CoorToPcl(view, coor, filter).value;
            (g in view.points || g in view.lines || g in view.circles) && Passes(filter, g) &&
            view.dist(coor, g) < FindRadius(view.scale)
  {
    CoorToSound(view, PointSel, coor, filter);
    CoorToSound(view, ClSel, coor, filter);
  }
}
