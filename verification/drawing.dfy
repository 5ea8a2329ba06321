/** `drawROI`: the polygons drawn for the selected ROIs on the loaded CT slice. */
module Drawing {
  import opened Wrappers
  import opened Dicom
  import opened Contours
  import opened RoiCatalogue

  /** The inner loop of `drawROI` over the first `|items|` items of one group:
      every item on the slice yields its polygon; there is no early exit. */
  function GroupPolygons(items: seq<ContourItem>, ct: CtImage): (r: Result<seq<seq<Point>>, Error>)
    ensures r.Ok? ==> |r.value| <= |items|
    ensures r.Err? ==> r.error in {NoReferencedImage, ContourDataNotTriples}
    decreases |items|
  {
    if items == [] then Ok([])
    else
      var m := |items| - 1;
      match GroupPolygons(items[..m], ct)
      case Err(e) => Err(e)
      case Ok(ps) =>
        (match CheckContour(items[m], ct)
         case Err(e) => Err(e)
         case Ok(hit) =>
           if !hit then Ok(ps)
           else
             (match ContourPolygon(items[m].contourData)
              case Err(e) => Err(e)
              case Ok(poly) => Ok(ps + [poly])))
  }

  /** The outer loop of `drawROI` over the first `|groups|` groups: a group is
      drawn when its resolved name is selected and it has a `ContourSequence`. */
  function Polygons(groups: seq<RoiContour>, names: seq<string>, selected: seq<string>, ct: CtImage)
    : (r: Result<seq<seq<Point>>, Error>)
    ensures r.Ok? ==> |groups| <= |names|
    ensures r.Err? ==> r.error in {RoiNameIndexOutOfRange, NoReferencedImage, ContourDataNotTriples}
    decreases |groups|
  {
    if groups == [] then Ok([])
    else
      var k := |groups| - 1;
      match Polygons(groups[..k], names, selected, ct)
      case Err(e) => Err(e)
      case Ok(ps) =>
        (match ResolveName(groups[k], k, names)
         case Err(e) => Err(e)
         case Ok(name) =>
           if name in selected && groups[k].contourSequence.Some? then
             (match GroupPolygons(groups[k].contourSequence.value, ct)
              case Err(e) => Err(e)
              case Ok(qs) => Ok(ps + qs))
           else Ok(ps))
  }

  /** `drawROI` on an RTSTRUCT: reading an absent `ROIContourSequence` is an error. */
  function DrawResult(rt: RtStruct, names: seq<string>, selected: seq<string>, ct: CtImage)
    : (r: Result<seq<seq<Point>>, Error>)
    ensures r == Err(RoiContourSequenceAbsent) <==> rt.roiContourSequence.None?
    ensures r.Err? ==> r.error in {RoiContourSequenceAbsent, RoiNameIndexOutOfRange, NoReferencedImage, ContourDataNotTriples}
  {
    match rt.roiContourSequence
    case None => Err(RoiContourSequenceAbsent)
    case Some(groups) => Polygons(groups, names, selected, ct)
  }

  /** Once the item loop has failed, the group's drawing fails the same way. */
  lemma {:induction false} GroupPolygonsErrPersists(items: seq<ContourItem>, n: nat, ct: CtImage)
    requires n <= |items| && GroupPolygons(items[..n], ct).Err?
    ensures GroupPolygons(items, ct) == GroupPolygons(items[..n], ct)
    decreases |items| - n
  {
    if n < |items| {
      var longer := items[..n + 1];
      assert longer[..n] == items[..n];
      GroupPolygonsErrPersists(items, n + 1, ct);
    } else {
      assert items[..n] == items;
    }
  }

  /** Once the group loop has failed, the whole drawing fails the same way. */
  lemma {:induction false} PolygonsErrPersists(groups: seq<RoiContour>, n: nat, names: seq<string>,
                                              selected: seq<string>, ct: CtImage)
    requires n <= |groups| && Polygons(groups[..n], names, selected, ct).Err?
    ensures Polygons(groups, names, selected, ct) == Polygons(groups[..n], names, selected, ct)
    decreases |groups| - n
  {
    if n < |groups| {
      var longer := groups[..n + 1];
      assert longer[..n] == groups[..n];
      PolygonsErrPersists(groups, n + 1, names, selected, ct);
    } else {
      assert groups[..n] == groups;
    }
  }

  /** A group's polygons can be drawn exactly when every item has a referenced
      image and every item on the slice has `ContourData` of triples. */
  lemma {:induction false} GroupPolygonsSucceed(items: seq<ContourItem>, ct: CtImage)
    ensures GroupPolygons(items, ct).Ok? <==>
      forall m :: 0 <= m < |items| ==>
        CheckContour(items[m], ct).Ok? &&
        (CheckContour(items[m], ct).value ==> |items[m].contourData| % 3 == 0)
  {
    if items != [] {
      var m := |items| - 1;
      var prefix := items[..m];
      assert forall i :: 0 <= i < m ==> prefix[i] == items[i];
      GroupPolygonsSucceed(prefix, ct);
    }
  }

  /** One polygon per item on the slice, in item order, each the x, y
      projection of that item's `ContourData`. `idx[j]` is the item polygon
      `j` came from. */
  lemma {:induction false} GroupPolygonsIndices(items: seq<ContourItem>, ct: CtImage,
                                               ps: seq<seq<Point>>) returns (idx: seq<nat>)
    requires GroupPolygons(items, ct) == Ok(ps)
    ensures |idx| == |ps|
    ensures forall j :: 0 <= j < |idx| ==>
      idx[j] < |items| && ContourPolygon(items[idx[j]].contourData) == Ok(ps[j])
    ensures forall i, j :: 0 <= i < j < |idx| ==> idx[i] < idx[j]
    ensures forall m :: 0 <= m < |items| ==> (m in idx <==> CheckContour(items[m], ct) == Ok(true))
  {
    if items == [] {
      idx := [];
    } else {
      var m := |items| - 1;
      var prefix := items[..m];
      assert forall i :: 0 <= i < m ==> prefix[i] == items[i];
      var earlier :| GroupPolygons(prefix, ct) == Ok(earlier);
      var before := GroupPolygonsIndices(prefix, ct, earlier);
      if CheckContour(items[m], ct) == Ok(true) {
        idx := before + [m];
      } else {
        idx := before;
      }
    }
  }

  /** A group whose scan finds nothing on the slice draws nothing. */
  lemma {:induction false} OffSliceDrawsNothing(items: seq<ContourItem>, ct: CtImage)
    requires AnyOnSlice(items, ct) == Ok(false)
    ensures GroupPolygons(items, ct) == Ok([])
  {
    AnyOnSliceFirstHit(items, ct);
    OffSlicePrefix(items, |items|, ct);
    assert items[..|items|] == items;
  }

  lemma {:induction false} OffSlicePrefix(items: seq<ContourItem>, n: nat, ct: CtImage)
    requires n <= |items|
    requires forall i :: 0 <= i < |items| ==> CheckContour(items[i], ct) == Ok(false)
    ensures GroupPolygons(items[..n], ct) == Ok([])
  {
    if n > 0 {
      OffSlicePrefix(items, n - 1, ct);
      assert items[..n][..n - 1] == items[..n - 1];
      assert items[..n][n - 1] == items[n - 1];
    }
  }

  /** A group whose scan finds the slice draws at least one polygon. */
  lemma OnSliceDrawsSomething(items: seq<ContourItem>, ct: CtImage, ps: seq<seq<Point>>)
    requires AnyOnSlice(items, ct) == Ok(true)
    requires GroupPolygons(items, ct) == Ok(ps)
    ensures |ps| > 0
  {
    AnyOnSliceFirstHit(items, ct);
    var idx := GroupPolygonsIndices(items, ct, ps);
    var j :| 0 <= j < |items| && CheckContour(items[j], ct) == Ok(true);
    assert j in idx;
  }

  /** Group `k` is drawn: its resolved name is selected and it has a
      `ContourSequence`. */
  ghost predicate SelectedGroup(groups: seq<RoiContour>, names: seq<string>, selected: seq<string>, k: nat)
  {
    k < |groups| && k < |names| && groups[k].contourSequence.Some? &&
    ResolveName(groups[k], k, names).value in selected
  }

  /** Item `m` of group `k` is drawn: the group is drawn and the item is on the slice. */
  ghost predicate DrawnItem(groups: seq<RoiContour>, names: seq<string>, selected: seq<string>,
                            ct: CtImage, k: nat, m: nat)
  {
    SelectedGroup(groups, names, selected, k) &&
    m < |groups[k].contourSequence.value| &&
    CheckContour(groups[k].contourSequence.value[m], ct) == Ok(true)
  }

  /** Item `at.1` of group `at.0` is drawn, as the polygon `poly`. */
  ghost predicate Yields(groups: seq<RoiContour>, names: seq<string>, selected: seq<string>,
                         ct: CtImage, at: (nat, nat), poly: seq<Point>)
  {
    DrawnItem(groups, names, selected, ct, at.0, at.1) &&
    ContourPolygon(groups[at.0].contourSequence.value[at.1].contourData) == Ok(poly)
  }

  /** Group order, then item order. */
  predicate Precedes(a: (nat, nat), b: (nat, nat))
  {
    a.0 < b.0 || (a.0 == b.0 && a.1 < b.1)
  }

  /** The drawing is, in group order and then item order, one polygon per
      on-slice item of every group whose resolved name is selected and which
      has a `ContourSequence`; each is that item's projected `ContourData`.
      Unselected groups and groups without contours add nothing. `idx[j]` is
      the (group, item) polygon `j` came from. */
  lemma {:induction false} PolygonsIndices(groups: seq<RoiContour>, names: seq<string>,
                                          selected: seq<string>, ct: CtImage,
                                          ps: seq<seq<Point>>) returns (idx: seq<(nat, nat)>)
    requires Polygons(groups, names, selected, ct) == Ok(ps)
    ensures |idx| == |ps|
    ensures forall j :: 0 <= j < |idx| ==> Yields(groups, names, selected, ct, idx[j], ps[j])
    ensures forall i, j :: 0 <= i < j < |idx| ==> Precedes(idx[i], idx[j])
    ensures forall k: nat, m: nat :: DrawnItem(groups, names, selected, ct, k, m) ==> (k, m) in idx
  {
    if groups == [] {
      idx := [];
      return;
    }
    var n := |groups| - 1;
    var prefix := groups[..n];
    var earlier :| Polygons(prefix, names, selected, ct) == Ok(earlier);
    var before := PolygonsIndices(prefix, names, selected, ct, earlier);
    if !SelectedGroup(groups, names, selected, n) {
      assert ps == earlier;
      idx := before;
      forall j | 0 <= j < |idx|
        ensures Yields(groups, names, selected, ct, idx[j], ps[j])
      {
        YieldsPrefix(groups, n, names, selected, ct, before[j], earlier[j]);
      }
      forall k: nat, m: nat | DrawnItem(groups, names, selected, ct, k, m)
        ensures (k, m) in idx
      {
        DrawnItemPrefix(groups, n, names, selected, ct, k, m);
      }
      return;
    }
    var items := groups[n].contourSequence.value;
    var qs := GroupPolygons(items, ct).value;
    assert ps == earlier + qs;
    var inGroup := GroupPolygonsIndices(items, ct, qs);
    var tail: seq<(nat, nat)> := seq(|inGroup|, i requires 0 <= i < |inGroup| => (n, inGroup[i]));
    idx := before + tail;
    YieldsAfterGroup(groups, names, selected, ct, earlier, qs, before, inGroup, tail);
    OrderedAfterGroup(groups, names, selected, ct, earlier, before, inGroup, tail);
    CoveredAfterGroup(groups, names, selected, ct, before, inGroup, tail);
  }

  /** Step of `PolygonsIndices`: the earlier groups' polygons keep their
      sources, and the last group's polygons come from its own items. */
  lemma YieldsAfterGroup(groups: seq<RoiContour>, names: seq<string>, selected: seq<string>, ct: CtImage,
                         earlier: seq<seq<Point>>, qs: seq<seq<Point>>,
                         before: seq<(nat, nat)>, inGroup: seq<nat>, tail: seq<(nat, nat)>)
    requires |groups| > 0 && SelectedGroup(groups, names, selected, |groups| - 1)
    requires |before| == |earlier| &&
      forall j :: 0 <= j < |before| ==> Yields(groups[..|groups| - 1], names, selected, ct, before[j], earlier[j])
    requires |inGroup| == |qs| && forall j :: 0 <= j < |inGroup| ==>
      inGroup[j] < |groups[|groups| - 1].contourSequence.value| &&
      ContourPolygon(groups[|groups| - 1].contourSequence.value[inGroup[j]].contourData) == Ok(qs[j])
    requires forall i :: 0 <= i < |groups[|groups| - 1].contourSequence.value| ==>
      (i in inGroup <==> CheckContour(groups[|groups| - 1].contourSequence.value[i], ct) == Ok(true))
    requires |tail| == |inGroup| && forall i :: 0 <= i < |tail| ==> tail[i] == (|groups| - 1, inGroup[i])
    ensures forall j :: 0 <= j < |before + tail| ==>
      Yields(groups, names, selected, ct, (before + tail)[j], (earlier + qs)[j])
  {
    var n := |groups| - 1;
    forall j | 0 <= j < |before + tail|
      ensures Yields(groups, names, selected, ct, (before + tail)[j], (earlier + qs)[j])
    {
      if j < |before| {
        assert (before + tail)[j] == before[j] && (earlier + qs)[j] == earlier[j];
        YieldsPrefix(groups, n, names, selected, ct, before[j], earlier[j]);
      } else {
        var i := j - |before|;
        assert (before + tail)[j] == (n, inGroup[i]) && (earlier + qs)[j] == qs[i];
        assert inGroup[i] in inGroup;
      }
    }
  }

  /** Step of `PolygonsIndices`: appending the last group's items keeps the
      sources in group order, then item order. */
  lemma OrderedAfterGroup(groups: seq<RoiContour>, names: seq<string>, selected: seq<string>, ct: CtImage,
                          earlier: seq<seq<Point>>, before: seq<(nat, nat)>, inGroup: seq<nat>,
                          tail: seq<(nat, nat)>)
    requires |groups| > 0
    requires |before| == |earlier| &&
      forall j :: 0 <= j < |before| ==> Yields(groups[..|groups| - 1], names, selected, ct, before[j], earlier[j])
    requires forall i, j :: 0 <= i < j < |before| ==> Precedes(before[i], before[j])
    requires forall i, j :: 0 <= i < j < |inGroup| ==> inGroup[i] < inGroup[j]
    requires |tail| == |inGroup| && forall i :: 0 <= i < |tail| ==> tail[i] == (|groups| - 1, inGroup[i])
    ensures forall i, j :: 0 <= i < j < |before + tail| ==> Precedes((before + tail)[i], (before + tail)[j])
  {
    var idx := before + tail;
    forall i, j | 0 <= i < j < |idx|
      ensures Precedes(idx[i], idx[j])
    {
      if i >= |before| {
        assert inGroup[i - |before|] < inGroup[j - |before|];
      } else if j >= |before| {
        assert Yields(groups[..|groups| - 1], names, selected, ct, before[i], earlier[i]);
        assert idx[i].0 < |groups| - 1;
      }
    }
  }

  /** Step of `PolygonsIndices`: every drawn item is listed among the earlier
      groups' items or among the last group's items. */
  lemma CoveredAfterGroup(groups: seq<RoiContour>, names: seq<string>, selected: seq<string>, ct: CtImage,
                          before: seq<(nat, nat)>, inGroup: seq<nat>, tail: seq<(nat, nat)>)
    requires |groups| > 0 && SelectedGroup(groups, names, selected, |groups| - 1)
    requires forall k: nat, m: nat :: DrawnItem(groups[..|groups| - 1], names, selected, ct, k, m) ==> (k, m) in before
    requires forall i :: 0 <= i < |groups[|groups| - 1].contourSequence.value| ==>
      (i in inGroup <==> CheckContour(groups[|groups| - 1].contourSequence.value[i], ct) == Ok(true))
    requires |tail| == |inGroup| && forall i :: 0 <= i < |tail| ==> tail[i] == (|groups| - 1, inGroup[i])
    ensures forall k: nat, m: nat :: DrawnItem(groups, names, selected, ct, k, m) ==> (k, m) in before + tail
  {
    var n := |groups| - 1;
    forall k: nat, m: nat | DrawnItem(groups, names, selected, ct, k, m)
      ensures (k, m) in before + tail
    {
      if k < n {
        DrawnItemPrefix(groups, n, names, selected, ct, k, m);
        var i :| 0 <= i < |before| && before[i] == (k, m);
        assert (before + tail)[i] == (k, m);
      } else {
        assert k == n && CheckContour(groups[n].contourSequence.value[m], ct) == Ok(true);
        assert m in inGroup;
        var i :| 0 <= i < |inGroup| && inGroup[i] == m;
        assert (before + tail)[|before| + i] == (k, m);
      }
    }
  }

  /** Whether an item of an earlier group is drawn, and as what, does not
      depend on the groups after it. */
  lemma YieldsPrefix(groups: seq<RoiContour>, n: nat, names: seq<string>, selected: seq<string>,
                     ct: CtImage, at: (nat, nat), poly: seq<Point>)
    requires at.0 < n <= |groups|
    ensures Yields(groups[..n], names, selected, ct, at, poly) <==> Yields(groups, names, selected, ct, at, poly)
  {
    assert groups[..n][at.0] == groups[at.0];
  }

  /** Whether an item of an earlier group is drawn does not depend on the
      groups after it. */
  lemma DrawnItemPrefix(groups: seq<RoiContour>, n: nat, names: seq<string>, selected: seq<string>,
                        ct: CtImage, k: nat, m: nat)
    requires k < n <= |groups|
    ensures DrawnItem(groups[..n], names, selected, ct, k, m) <==> DrawnItem(groups, names, selected, ct, k, m)
  {
    assert groups[..n][k] == groups[k];
  }

  /** A drawn group's polygons appear in the drawing as one contiguous block. */
  lemma {:induction false} PolygonsIncludeGroup(groups: seq<RoiContour>, names: seq<string>,
                                               selected: seq<string>, ct: CtImage,
                                               ps: seq<seq<Point>>, k: nat)
    returns (a: seq<seq<Point>>, b: seq<seq<Point>>)
    requires Polygons(groups, names, selected, ct) == Ok(ps)
    requires k < |groups| && groups[k].contourSequence.Some?
    requires ResolveName(groups[k], k, names).Ok? && ResolveName(groups[k], k, names).value in selected
    ensures GroupPolygons(groups[k].contourSequence.value, ct).Ok?
    ensures ps == a + GroupPolygons(groups[k].contourSequence.value, ct).value + b
  {
    var n := |groups| - 1;
    var prefix := groups[..n];
    var earlier :| Polygons(prefix, names, selected, ct) == Ok(earlier);
    if k < n {
      assert prefix[k] == groups[k];
      var b0;
      a, b0 := PolygonsIncludeGroup(prefix, names, selected, ct, earlier, k);
      var qs := GroupPolygons(groups[k].contourSequence.value, ct).value;
      var extra := ps[|earlier|..];
      assert ps == earlier + extra;
      b := b0 + extra;
      assert ps == a + qs + b;
    } else {
      var qs := GroupPolygons(groups[k].contourSequence.value, ct).value;
      a, b := earlier, [];
      assert ps == a + qs + b;
    }
  }

  /** If no selected name is in the catalogue for this slice, nothing is drawn. */
  lemma {:induction false} UncataloguedDrawsNothing(groups: seq<RoiContour>, names: seq<string>,
                                                   selected: seq<string>, ct: CtImage, rois: seq<string>)
    requires Catalogue(groups, names, ct) == Ok(rois)
    requires forall x :: x in selected ==> x !in rois
    ensures Polygons(groups, names, selected, ct) == Ok([])
  {
    if groups != [] {
      var k := |groups| - 1;
      var prefix := groups[..k];
      var earlier :| Catalogue(prefix, names, ct) == Ok(earlier);
      var idx := CatalogueIndices(groups, names, ct, rois);
      UncataloguedDrawsNothing(prefix, names, selected, ct, earlier);
      var name := ResolveName(groups[k], k, names).value;
      if name in selected && groups[k].contourSequence.Some? {
        // the group is not catalogued, so its scan found nothing
        assert k !in idx;
        var items := groups[k].contourSequence.value;
        assert GroupOnSlice(groups[k], ct) == AnyOnSlice(items, ct) == Ok(false);
        OffSliceDrawsNothing(items, ct);
        var none: seq<seq<Point>> := [];
        assert none + none == none;
        assert Polygons(groups, names, selected, ct) == Ok(none + none);
      }
    }
  }

  /** Item `m` of group `k` is drawn, the group resolves to `x`, and the
      item's polygon is in `ps`. */
  ghost predicate DrawnPolygonOf(groups: seq<RoiContour>, names: seq<string>, selected: seq<string>,
                                 ct: CtImage, k: nat, m: nat, x: string, ps: seq<seq<Point>>)
  {
    DrawnItem(groups, names, selected, ct, k, m) &&
    ResolveName(groups[k], k, names) == Ok(x) &&
    ContourPolygon(groups[k].contourSequence.value[m].contourData).Ok? &&
    ContourPolygon(groups[k].contourSequence.value[m].contourData).value in ps
  }

  /** A selected name that the catalogue lists for this slice is drawn: some
      group resolved to that name has an on-slice item whose polygon is in
      the drawing. */
  lemma CataloguedSelectionDraws(groups: seq<RoiContour>, names: seq<string>, selected: seq<string>,
                                 ct: CtImage, rois: seq<string>, x: string, ps: seq<seq<Point>>)
    requires Catalogue(groups, names, ct) == Ok(rois)
    requires x in rois && x in selected
    requires Polygons(groups, names, selected, ct) == Ok(ps)
    ensures exists k: nat, m: nat :: DrawnPolygonOf(groups, names, selected, ct, k, m, x, ps)
  {
    var cidx := CatalogueIndices(groups, names, ct, rois);
    var j :| 0 <= j < |rois| && rois[j] == x;
    var k := cidx[j];
    assert GroupOnSlice(groups[k], ct) == Ok(true);
    var items := groups[k].contourSequence.value;
    AnyOnSliceFirstHit(items, ct);
    var m :| 0 <= m < |items| && CheckContour(items[m], ct) == Ok(true);
    assert DrawnItem(groups, names, selected, ct, k, m);
    var pidx := PolygonsIndices(groups, names, selected, ct, ps);
    var i :| 0 <= i < |pidx| && pidx[i] == (k, m);
    assert ContourPolygon(items[m].contourData) == Ok(ps[i]);
    assert DrawnPolygonOf(groups, names, selected, ct, k, m, x, ps);
  }

  /** A contour item on the slice whose data was stored from points `vs` is
      drawn exactly once, as their x, y projection in order. */
  lemma SingleContourRoundTrip(ref: ContourImage, more: seq<ContourImage>, vs: seq<Vertex>, ct: CtImage)
    requires ref.referencedSopInstanceUid == ct.sopInstanceUid
    ensures GroupPolygons([ContourItem([ref] + more, Flatten(vs))], ct) == Ok([Outline(vs)])
  {
    ContourPolygonRoundTrip(vs);
    var items := [ContourItem([ref] + more, Flatten(vs))];
    assert items[..0] == [];
    assert CheckContour(items[0], ct) == Ok(true);
    var none: seq<seq<Point>> := [];
    assert none + [Outline(vs)] == [Outline(vs)];
    assert GroupPolygons(items, ct) == Ok(none + [Outline(vs)]);
  }

  /** The stored `ContourData` of the triangle (0,0,0), (10,0,0), (10,10,0). */
  lemma LungTriangleData()
    ensures Flatten([Vertex(0.0, 0.0, 0.0), Vertex(10.0, 0.0, 0.0), Vertex(10.0, 10.0, 0.0)]) ==
      [0.0, 0.0, 0.0, 10.0, 0.0, 0.0, 10.0, 10.0, 0.0]
  {
    var v0, v1, v2 := Vertex(0.0, 0.0, 0.0), Vertex(10.0, 0.0, 0.0), Vertex(10.0, 10.0, 0.0);
    var empty: seq<Vertex> := [];
    assert [v2][1..] == empty;
    assert Flatten([v2]) == [10.0, 10.0, 0.0] + Flatten(empty);
    assert [v1, v2][1..] == [v2];
    assert Flatten([v1, v2]) == [10.0, 0.0, 0.0] + Flatten([v2]);
    assert [v0, v1, v2][1..] == [v1, v2];
    assert Flatten([v0, v1, v2]) == [0.0, 0.0, 0.0] + Flatten([v1, v2]);
  }

  /** One ROI "Lung" with one contour on the loaded slice "IMG1": it is
      catalogued and drawn as the triangle (0,0), (10,0), (10,10). */
  lemma LungOnSlice(ct: CtImage)
    requires ct.sopInstanceUid == "IMG1"
    ensures var groups := [RoiContour(Some("Lung"), Some([ContourItem([ContourImage("IMG1")],
                                [0.0, 0.0, 0.0, 10.0, 0.0, 0.0, 10.0, 10.0, 0.0])]))];
      Catalogue(groups, ["Lung"], ct) == Ok(["Lung"]) &&
      Polygons(groups, ["Lung"], ["Lung"], ct) == Ok([[Point(0.0, 0.0), Point(10.0, 0.0), Point(10.0, 10.0)]])
  {
    var vs := [Vertex(0.0, 0.0, 0.0), Vertex(10.0, 0.0, 0.0), Vertex(10.0, 10.0, 0.0)];
    var data := [0.0, 0.0, 0.0, 10.0, 0.0, 0.0, 10.0, 10.0, 0.0];
    LungTriangleData();
    var items := [ContourItem([ContourImage("IMG1")], data)];
    SingleContourRoundTrip(ContourImage("IMG1"), [], vs, ct);
    assert [ContourImage("IMG1")] + [] == [ContourImage("IMG1")];
    var groups := [RoiContour(Some("Lung"), Some(items))];
    assert groups[..0] == [];
    assert items[..0] == [];
    assert AnyOnSlice(items, ct) == Ok(true);
    var lung: seq<string> := [];
    assert lung + ["Lung"] == ["Lung"];
    assert GroupPolygons(items, ct) == Ok([Outline(vs)]);
    assert Outline(vs) == [Point(0.0, 0.0), Point(10.0, 0.0), Point(10.0, 10.0)];
    var none: seq<seq<Point>> := [];
    assert none + [Outline(vs)] == [Outline(vs)];
    assert Polygons(groups, ["Lung"], ["Lung"], ct) == Ok(none + [Outline(vs)]);
  }

  /** The same ROI with its contour on another slice "IMG2" is neither
      catalogued nor drawn. */
  lemma LungOffSlice(ct: CtImage)
    requires ct.sopInstanceUid == "IMG1"
    ensures var groups := [RoiContour(Some("Lung"), Some([ContourItem([ContourImage("IMG2")],
                                [0.0, 0.0, 0.0, 10.0, 0.0, 0.0, 10.0, 10.0, 0.0])]))];
      Catalogue(groups, ["Lung"], ct) == Ok([]) &&
      Polygons(groups, ["Lung"], ["Lung"], ct) == Ok([])
  {
    var items := [ContourItem([ContourImage("IMG2")], [0.0, 0.0, 0.0, 10.0, 0.0, 0.0, 10.0, 10.0, 0.0])];
    var groups := [RoiContour(Some("Lung"), Some(items))];
    assert groups[..0] == [];
    assert items[..0] == [];
    assert "IMG2" != "IMG1" by { assert "IMG2"[3] != "IMG1"[3]; }
    assert CheckContour(items[0], ct) == Ok(false);
    assert items[1..] == [];
    assert AnyOnSlice(items, ct) == Ok(false);
    var none: seq<seq<Point>> := [];
    assert none + none == none;
  }
}
