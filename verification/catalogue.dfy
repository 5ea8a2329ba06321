/** `getROI`: the names of the ROI contour groups that have geometry on the
    loaded CT slice. */
module RoiCatalogue {
  import opened Wrappers
  import opened Dicom
  import opened Contours

  /** The names `getROI` appends to `ROINames`: one per
      `StructureSetROISequence` item, in order; none when the sequence is absent. */
  function DefinitionNames(rt: RtStruct): (names: seq<string>)
    ensures rt.structureSetRoiSequence.None? ==> names == []
    ensures rt.structureSetRoiSequence.Some? ==>
      |names| == |rt.structureSetRoiSequence.value| &&
      forall i :: 0 <= i < |names| ==> names[i] == rt.structureSetRoiSequence.value[i].roiName
  {
    match rt.structureSetRoiSequence
    case None => []
    case Some(defs) => seq(|defs|, i requires 0 <= i < |defs| => defs[i].roiName)
  }

  /** The name of the group at position `k`: its own `ROIName` if it has one,
      else `names[k]`. The fallback is evaluated even when it is not used, so
      `k` must index `names` in both cases. */
  function ResolveName(g: RoiContour, k: nat, names: seq<string>): (r: Result<string, Error>)
    ensures r.Ok? <==> k < |names|
    ensures r.Ok? && g.roiName.Some? ==> r.value == g.roiName.value
    ensures r.Ok? && g.roiName.None? ==> r.value == names[k]
    ensures r.Err? ==> r.error == RoiNameIndexOutOfRange
  {
    if k < |names| then Ok(g.roiName.GetOr(names[k])) else Err(RoiNameIndexOutOfRange)
  }

  /** The inner loop of `getROI`: check the items in order and stop at the
      first one on the slice. */
  function AnyOnSlice(items: seq<ContourItem>, ct: CtImage): (r: Result<bool, Error>)
    ensures r.Err? ==> r.error == NoReferencedImage
  {
    if items == [] then Ok(false)
    else match CheckContour(items[0], ct)
      case Err(e) => Err(e)
      case Ok(hit) => if hit then Ok(true) else AnyOnSlice(items[1..], ct)
  }

  /** Item `j` is the first item on the slice, and every item before it
      could be checked. */
  ghost predicate FirstOnSlice(items: seq<ContourItem>, ct: CtImage, j: nat)
  {
    j < |items| && CheckContour(items[j], ct) == Ok(true) &&
    forall i :: 0 <= i < j ==> CheckContour(items[i], ct) == Ok(false)
  }

  /** The scan finds the slice exactly when some item is on it and every item
      before that one could be checked; it finds nothing exactly when every
      item could be checked and none is on it; it fails only on a contour
      without a referenced image. */
  lemma {:induction false} AnyOnSliceFirstHit(items: seq<ContourItem>, ct: CtImage)
    ensures AnyOnSlice(items, ct) == Ok(true) <==> exists j: nat :: FirstOnSlice(items, ct, j)
    ensures AnyOnSlice(items, ct) == Ok(false) <==>
      forall i :: 0 <= i < |items| ==> CheckContour(items[i], ct) == Ok(false)
    ensures AnyOnSlice(items, ct).Err? ==> AnyOnSlice(items, ct).error == NoReferencedImage
  {
    if items != [] {
      AnyOnSliceFirstHit(items[1..], ct);
      var rest := items[1..];
      assert forall i :: 0 < i < |items| ==> items[i] == rest[i - 1];
      if CheckContour(items[0], ct) == Ok(false) {
        if AnyOnSlice(rest, ct) == Ok(true) {
          var j: nat :| FirstOnSlice(rest, ct, j);
          assert FirstOnSlice(items, ct, j + 1);
        }
        if exists j: nat :: FirstOnSlice(items, ct, j) {
          var j: nat :| FirstOnSlice(items, ct, j);
          assert j > 0;
          assert FirstOnSlice(rest, ct, j - 1);
        }
      } else if CheckContour(items[0], ct) == Ok(true) {
        assert FirstOnSlice(items, ct, 0);
      }
    }
  }

  /** When every item names at least one image, the scan answers whether some
      item's first reference is the loaded slice. */
  lemma AnyOnSliceWellFormed(items: seq<ContourItem>, ct: CtImage)
    requires forall i :: 0 <= i < |items| ==> |items[i].contourImageSequence| > 0
    ensures AnyOnSlice(items, ct) == Ok(ReferencesSlice(items, ct))
  {
    AnyOnSliceFirstHit(items, ct);
    if exists i :: 0 <= i < |items| &&
        items[i].contourImageSequence[0].referencedSopInstanceUid == ct.sopInstanceUid {
      var i :| 0 <= i < |items| &&
        items[i].contourImageSequence[0].referencedSopInstanceUid == ct.sopInstanceUid;
      assert CheckContour(items[i], ct) == Ok(true);
      var j := FirstHit(items, ct, i);
    }
  }

  /** Some item's first referenced image is the loaded slice. */
  ghost predicate ReferencesSlice(items: seq<ContourItem>, ct: CtImage)
    requires forall i :: 0 <= i < |items| ==> |items[i].contourImageSequence| > 0
  {
    exists i :: 0 <= i < |items| &&
      items[i].contourImageSequence[0].referencedSopInstanceUid == ct.sopInstanceUid
  }

  /** The earliest item on the slice, at or before `i`. */
  lemma {:induction false} FirstHit(items: seq<ContourItem>, ct: CtImage, i: nat) returns (j: nat)
    requires forall m :: 0 <= m < |items| ==> |items[m].contourImageSequence| > 0
    requires i < |items| && CheckContour(items[i], ct) == Ok(true)
    ensures j <= i && CheckContour(items[j], ct) == Ok(true)
    ensures forall m :: 0 <= m < j ==> CheckContour(items[m], ct) == Ok(false)
  {
    if forall m :: 0 <= m < i ==> CheckContour(items[m], ct) == Ok(false) {
      j := i;
    } else {
      var m :| 0 <= m < i && CheckContour(items[m], ct) != Ok(false);
      j := FirstHit(items, ct, m);
    }
  }

  /** Whether a group has geometry on the slice; a group without
      `ContourSequence` has none. */
  function GroupOnSlice(g: RoiContour, ct: CtImage): (r: Result<bool, Error>)
    ensures r.Err? ==> r.error == NoReferencedImage
  {
    match g.contourSequence
    case None => Ok(false)
    case Some(items) => AnyOnSlice(items, ct)
  }

  /** The outer loop of `getROI` over the first `|groups|` groups. */
  function Catalogue(groups: seq<RoiContour>, names: seq<string>, ct: CtImage): (r: Result<seq<string>, Error>)
    ensures r.Ok? ==> |groups| <= |names| && |r.value| <= |groups|
    ensures r.Err? ==> r.error in {RoiNameIndexOutOfRange, NoReferencedImage}
    decreases |groups|
  {
    if groups == [] then Ok([])
    else
      var k := |groups| - 1;
      match Catalogue(groups[..k], names, ct)
      case Err(e) => Err(e)
      case Ok(rois) =>
        (match ResolveName(groups[k], k, names)
         case Err(e) => Err(e)
         case Ok(name) =>
           (match GroupOnSlice(groups[k], ct)
            case Err(e) => Err(e)
            case Ok(hit) => Ok(if hit then rois + [name] else rois)))
  }

  /** One more group: past the end of `names` the catalogue fails, otherwise
      the group's name is added when its scan finds the slice. */
  lemma CatalogueStep(groups: seq<RoiContour>, n: nat, names: seq<string>, ct: CtImage, rois: seq<string>)
    requires n < |groups| && Catalogue(groups[..n], names, ct) == Ok(rois)
    ensures n >= |names| ==> Catalogue(groups[..n + 1], names, ct) == Err(RoiNameIndexOutOfRange)
    ensures n < |names| && GroupOnSlice(groups[n], ct).Err? ==>
      Catalogue(groups[..n + 1], names, ct) == Err(NoReferencedImage)
    ensures n < |names| && GroupOnSlice(groups[n], ct) == Ok(true) ==>
      Catalogue(groups[..n + 1], names, ct) == Ok(rois + [groups[n].roiName.GetOr(names[n])])
    ensures n < |names| && GroupOnSlice(groups[n], ct) == Ok(false) ==>
      Catalogue(groups[..n + 1], names, ct) == Ok(rois)
  {
    assert groups[..n + 1][..n] == groups[..n];
  }

  /** Once the loop has failed on a group, the whole catalogue fails the same way. */
  lemma {:induction false} CatalogueErrPersists(groups: seq<RoiContour>, n: nat, names: seq<string>, ct: CtImage)
    requires n <= |groups| && Catalogue(groups[..n], names, ct).Err?
    ensures Catalogue(groups, names, ct) == Catalogue(groups[..n], names, ct)
    decreases |groups| - n
  {
    if n < |groups| {
      var longer := groups[..n + 1];
      assert longer[..n] == groups[..n];
      CatalogueErrPersists(groups, n + 1, names, ct);
    } else {
      assert groups[..n] == groups;
    }
  }

  /** `getROI` once `ROINames` is `names`: a missing `ROIContourSequence` is
      the ValueError, otherwise the catalogue of its groups. */
  function GetRoiResult(rt: RtStruct, names: seq<string>, ct: CtImage): (r: Result<seq<string>, Error>)
    ensures r.Ok? ==> rt.roiContourSequence.Some? && |r.value| <= |rt.roiContourSequence.value|
    ensures r.Err? ==> r.error in {NoRoiContourSequence, RoiNameIndexOutOfRange, NoReferencedImage}
    ensures r == Err(NoRoiContourSequence) <==> rt.roiContourSequence.None?
  {
    match rt.roiContourSequence
    case None => Err(NoRoiContourSequence)
    case Some(groups) => Catalogue(groups, names, ct)
  }

  /** The catalogue succeeds exactly when every group has a name at its
      position and every group's scan succeeds. */
  lemma {:induction false} CatalogueSucceeds(groups: seq<RoiContour>, names: seq<string>, ct: CtImage)
    ensures Catalogue(groups, names, ct).Ok? <==>
      |groups| <= |names| && forall k :: 0 <= k < |groups| ==> GroupOnSlice(groups[k], ct).Ok?
    ensures Catalogue(groups, names, ct).Err? ==>
      Catalogue(groups, names, ct).error in {RoiNameIndexOutOfRange, NoReferencedImage}
  {
    if groups != [] {
      var k := |groups| - 1;
      var prefix := groups[..k];
      CatalogueSucceeds(prefix, names, ct);
      assert forall i :: 0 <= i < k ==> prefix[i] == groups[i];
      match GroupOnSlice(groups[k], ct)
      case Ok(_) =>
      case Err(_) =>
        match groups[k].contourSequence
        case None =>
        case Some(items) => AnyOnSliceFirstHit(items, ct);
    }
  }

  /** The catalogue lists, in group order, the resolved name of exactly those
      groups that have geometry on the slice, one entry per such group; the
      same name appears twice when two groups carry it. `idx[j]` is the group
      entry `j` came from. */
  lemma {:induction false} CatalogueIndices(groups: seq<RoiContour>, names: seq<string>, ct: CtImage,
                                           rois: seq<string>) returns (idx: seq<nat>)
    requires Catalogue(groups, names, ct) == Ok(rois)
    ensures |idx| == |rois|
    ensures forall j :: 0 <= j < |idx| ==>
      idx[j] < |groups| && ResolveName(groups[idx[j]], idx[j], names) == Ok(rois[j])
    ensures forall i, j :: 0 <= i < j < |idx| ==> idx[i] < idx[j]
    ensures forall k :: 0 <= k < |groups| ==> (k in idx <==> GroupOnSlice(groups[k], ct) == Ok(true))
  {
    if groups == [] {
      idx := [];
    } else {
      var k := |groups| - 1;
      var prefix := groups[..k];
      assert forall i :: 0 <= i < k ==> prefix[i] == groups[i];
      var earlier :| Catalogue(prefix, names, ct) == Ok(earlier);
      var before := CatalogueIndices(prefix, names, ct, earlier);
      var name := ResolveName(groups[k], k, names).value;
      if GroupOnSlice(groups[k], ct) == Ok(true) {
        idx := before + [k];
        assert rois == earlier + [name];
      } else {
        idx := before;
      }
    }
  }

  /** `getROI` fails with the ValueError exactly when the RTSTRUCT has no
      `ROIContourSequence`. */
  lemma GetRoiFailsWithoutContours(rt: RtStruct, names: seq<string>, ct: CtImage)
    ensures GetRoiResult(rt, names, ct) == Err(NoRoiContourSequence) <==> rt.roiContourSequence.None?
  {
    if rt.roiContourSequence.Some? {
      CatalogueSucceeds(rt.roiContourSequence.value, names, ct);
    }
  }

  /** Every catalogued name is a group's own `ROIName` or an entry of
      `ROINames`; so when no group carries its own name, the catalogue only
      lists names from `ROINames`. */
  lemma CatalogueNamesKnown(groups: seq<RoiContour>, names: seq<string>, ct: CtImage, rois: seq<string>)
    requires Catalogue(groups, names, ct) == Ok(rois)
    ensures forall x :: x in rois ==>
      x in names || exists k :: 0 <= k < |groups| && groups[k].roiName == Some(x)
  {
    var idx := CatalogueIndices(groups, names, ct, rois);
    forall x | x in rois
      ensures x in names || exists k :: 0 <= k < |groups| && groups[k].roiName == Some(x)
    {
      var j :| 0 <= j < |rois| && rois[j] == x;
      var k := idx[j];
      if groups[k].roiName.None? {
        assert names[k] == x;
      } else {
        assert groups[k].roiName == Some(x);
      }
    }
  }

  /** Names appended after the first `|groups|` entries of `ROINames` never
      change the catalogue. */
  lemma {:induction false} CatalogueIgnoresLaterNames(groups: seq<RoiContour>, names: seq<string>,
                                                     later: seq<string>, ct: CtImage)
    requires |groups| <= |names|
    ensures Catalogue(groups, names + later, ct) == Catalogue(groups, names, ct)
  {
    if groups != [] {
      var k := |groups| - 1;
      CatalogueIgnoresLaterNames(groups[..k], names, later, ct);
      assert (names + later)[k] == names[k];
    }
  }

  /** Because `ROINames` is never cleared, once it holds a name for every
      group, a newly loaded RTSTRUCT's own declared names play no part in its
      catalogue: the fallback names come from the earlier records. */
  lemma StaleFallbackNames(rt: RtStruct, earlier: seq<string>, ct: CtImage)
    requires rt.roiContourSequence.Some? && |rt.roiContourSequence.value| <= |earlier|
    ensures GetRoiResult(rt, earlier + DefinitionNames(rt), ct) == Catalogue(rt.roiContourSequence.value, earlier, ct)
  {
    CatalogueIgnoresLaterNames(rt.roiContourSequence.value, earlier, DefinitionNames(rt), ct);
  }
}
