/** The viewer session: the loaded records, the accumulated ROI names and the
    user's selection, with the operations behind its four buttons. */
module Viewer {
  import opened Wrappers
  import opened Dicom
  import opened Contours
  import opened RoiCatalogue
  import opened Drawing
  import opened Render

  /** The inner loop of `getROI`: check the items in order, stop at the first
      one on the slice, and fail on a contour without a referenced image. */
  method ScanContours(items: seq<ContourItem>, ct: CtImage) returns (r: Result<bool, Error>)
    ensures r == AnyOnSlice(items, ct)
  {
    var j := 0;
    while j < |items|
      invariant j <= |items|
      invariant AnyOnSlice(items, ct) == AnyOnSlice(items[j..], ct)
    {
      assert items[j..][1..] == items[j + 1..];
      if |items[j].contourImageSequence| == 0 {
        return Err(NoReferencedImage);
      }
      if items[j].contourImageSequence[0].referencedSopInstanceUid == ct.sopInstanceUid {
        return Ok(true);
      }
      j := j + 1;
    }
    return Ok(false);
  }

  class AppDicom {
    var dicomCt: Option<CtImage>
    var dicomRtstruct: Option<RtStruct>
    /** Names appended by every catalogue run; never cleared. */
    var roiNames: seq<string>
    var selectedRois: seq<string>

    constructor ()
      ensures dicomCt == None && dicomRtstruct == None
      ensures roiNames == [] && selectedRois == []
    {
      dicomCt := None;
      dicomRtstruct := None;
      roiNames := [];
      selectedRois := [];
    }

    /** `loadCT` on the record the dialog produced (`None`: the dialog was
        cancelled). A record of another modality is rejected with a warning
        and empties the slot. */
    method LoadCT(file: Option<CtImage>) returns (warning: bool)
      modifies this`dicomCt
      ensures warning <==> file.Some? && file.value.modality != "CT"
      ensures file.None? ==> dicomCt == old(dicomCt)
      ensures file.Some? ==> dicomCt == if warning then None else file
    {
      warning := false;
      if file.Some? {
        dicomCt := file;
        if dicomCt.value.modality != "CT" {
          warning := true;
          dicomCt := None;
        }
      }
    }

    /** `loadRTSTRUCT`, as `LoadCT` with the modality "RTSTRUCT". */
    method LoadRTStruct(file: Option<RtStruct>) returns (warning: bool)
      modifies this`dicomRtstruct
      ensures warning <==> file.Some? && file.value.modality != "RTSTRUCT"
      ensures file.None? ==> dicomRtstruct == old(dicomRtstruct)
      ensures file.Some? ==> dicomRtstruct == if warning then None else file
    {
      warning := false;
      if file.Some? {
        dicomRtstruct := file;
        if dicomRtstruct.value.modality != "RTSTRUCT" {
          warning := true;
          dicomRtstruct := None;
        }
      }
    }

    /** `getROI`: append the declared names to `roiNames`, then list the
        groups with geometry on the loaded slice. The names stay appended
        even when the listing fails. */
    method GetROI() returns (r: Result<seq<string>, Error>)
      requires dicomCt.Some? && dicomRtstruct.Some?
      modifies this`roiNames
      ensures roiNames == old(roiNames) + DefinitionNames(dicomRtstruct.value)
      ensures r == GetRoiResult(dicomRtstruct.value, roiNames, dicomCt.value)
    {
      var rt := dicomRtstruct.value;
      var ct := dicomCt.value;
      if rt.structureSetRoiSequence.Some? {
        var defs := rt.structureSetRoiSequence.value;
        for i := 0 to |defs|
          invariant roiNames == old(roiNames) + DefinitionNames(RtStruct(rt.modality, Some(defs[..i]), None))
        {
          roiNames := roiNames + [defs[i].roiName];
        }
        assert defs[..|defs|] == defs;
      }
      assert roiNames == old(roiNames) + DefinitionNames(rt);
      if rt.roiContourSequence.None? {
        return Err(NoRoiContourSequence);
      }
      var groups := rt.roiContourSequence.value;
      var names := roiNames;
      var rois: seq<string> := [];
      var counter := 0;
      while counter < |groups|
        invariant counter <= |groups|
        invariant roiNames == names
        invariant Catalogue(groups[..counter], names, ct) == Ok(rois)
      {
        var g := groups[counter];
        CatalogueStep(groups, counter, names, ct, rois);
        if counter >= |names| {
          CatalogueErrPersists(groups, counter + 1, names, ct);
          return Err(RoiNameIndexOutOfRange);
        }
        var roiName := g.roiName.GetOr(names[counter]);
        counter := counter + 1;
        if g.contourSequence.Some? {
          var hit := ScanContours(g.contourSequence.value, ct);
          if hit.Err? {
            CatalogueErrPersists(groups, counter, names, ct);
            return Err(NoReferencedImage);
          }
          if hit.value {
            rois := rois + [roiName];
          }
        }
      }
      assert groups[..|groups|] == groups;
      return Ok(rois);
    }

    /** `selectROI` up to opening the list: warn when a record is missing,
        otherwise run `getROI`; its ValueError becomes a warning. */
    method SelectROI() returns (r: Result<seq<string>, Error>)
      modifies this`roiNames
      ensures dicomCt.None? && dicomRtstruct.None? ==> r == Err(MissingCtAndRtstruct)
      ensures dicomCt.None? && dicomRtstruct.Some? ==> r == Err(MissingCt)
      ensures dicomCt.Some? && dicomRtstruct.None? ==> r == Err(MissingRtstruct)
      ensures (dicomCt.None? || dicomRtstruct.None?) ==> roiNames == old(roiNames)
      ensures dicomCt.Some? && dicomRtstruct.Some? ==>
        roiNames == old(roiNames) + DefinitionNames(dicomRtstruct.value) &&
        r == GetRoiResult(dicomRtstruct.value, roiNames, dicomCt.value)
    {
      if dicomCt.None? && dicomRtstruct.None? {
        return Err(MissingCtAndRtstruct);
      }
      if dicomCt.None? {
        return Err(MissingCt);
      }
      if dicomRtstruct.None? {
        return Err(MissingRtstruct);
      }
      r := GetROI();
    }

    /** The `ok` callback: the selection becomes the listed names at the
        chosen positions, in the order the positions are given. */
    method ConfirmSelection(rois: seq<string>, chosen: seq<nat>)
      requires forall i :: 0 <= i < |chosen| ==> chosen[i] < |rois|
      modifies this`selectedRois
      ensures |selectedRois| == |chosen|
      ensures forall i :: 0 <= i < |chosen| ==> selectedRois[i] == rois[chosen[i]]
    {
      selectedRois := seq(|chosen|, i requires 0 <= i < |chosen| => rois[chosen[i]]);
    }

    /** `drawROI`: the polygons of every contour item on the loaded slice whose
        group's name is selected, in group and item order. */
    method DrawROI() returns (r: Result<seq<seq<Point>>, Error>)
      requires dicomCt.Some? && dicomRtstruct.Some?
      ensures r == DrawResult(dicomRtstruct.value, roiNames, selectedRois, dicomCt.value)
    {
      var rt := dicomRtstruct.value;
      var ct := dicomCt.value;
      if rt.roiContourSequence.None? {
        return Err(RoiContourSequenceAbsent);
      }
      var groups := rt.roiContourSequence.value;
      var patches: seq<seq<Point>> := [];
      var counter := 0;
      while counter < |groups|
        invariant counter <= |groups|
        invariant Polygons(groups[..counter], roiNames, selectedRois, ct) == Ok(patches)
      {
        var g := groups[counter];
        assert groups[..counter + 1][..counter] == groups[..counter];
        if counter >= |roiNames| {
          PolygonsErrPersists(groups, counter + 1, roiNames, selectedRois, ct);
          return Err(RoiNameIndexOutOfRange);
        }
        var roiName := g.roiName.GetOr(roiNames[counter]);
        counter := counter + 1;
        if roiName in selectedRois && g.contourSequence.Some? {
          var items := g.contourSequence.value;
          ghost var before := patches;
          assert items[..0] == [] && patches[|before|..] == [];
          for j := 0 to |items|
            invariant |before| <= |patches| && patches[..|before|] == before
            invariant GroupPolygons(items[..j], ct) == Ok(patches[|before|..])
          {
            assert items[..j + 1][..j] == items[..j];
            if |items[j].contourImageSequence| == 0 {
              GroupPolygonsErrPersists(items, j + 1, ct);
              PolygonsErrPersists(groups, counter, roiNames, selectedRois, ct);
              return Err(NoReferencedImage);
            }
            if items[j].contourImageSequence[0].referencedSopInstanceUid == ct.sopInstanceUid {
              var polygon := ContourPolygon(items[j].contourData);
              if polygon.Err? {
                GroupPolygonsErrPersists(items, j + 1, ct);
                PolygonsErrPersists(groups, counter, roiNames, selectedRois, ct);
                return Err(polygon.error);
              }
              assert (patches + [polygon.value])[|before|..] == patches[|before|..] + [polygon.value];
              patches := patches + [polygon.value];
            }
          }
          assert items[..|items|] == items;
          assert patches == before + patches[|before|..];
        }
      }
      assert groups[..|groups|] == groups;
      return Ok(patches);
    }

    /** `visualize`: nothing happens without both records and a selection;
        otherwise the scene is the CT pixels at the flipped extent, the
        selected polygons and the title. The session is not changed. */
    method Visualize() returns (r: Result<Scene, Error>)
      ensures (dicomCt.None? || dicomRtstruct.None? || selectedRois == []) ==> r == Err(NotReady)
      ensures dicomCt.Some? && dicomRtstruct.Some? && selectedRois != [] ==>
        var drawn := DrawResult(dicomRtstruct.value, roiNames, selectedRois, dicomCt.value);
        (r.Ok? <==> drawn.Ok?) &&
        (r.Err? ==> r.error == drawn.error) &&
        (r.Ok? ==> r.value == Scene(dicomCt.value.pixelArray,
                                    DisplayExtent(CalculateImageDimensions(dicomCt.value)),
                                    drawn.value, Title(selectedRois)))
    {
      if dicomCt.None? || dicomRtstruct.None? || selectedRois == [] {
        return Err(NotReady);
      }
      var ct := dicomCt.value;
      var dims := CalculateImageDimensions(ct);
      var extent := ImageExtent(dims.x1, dims.x2, dims.y2, dims.y1);
      var drawn := DrawROI();
      if drawn.Err? {
        return Err(drawn.error);
      }
      r := Ok(Scene(ct.pixelArray, extent, drawn.value, Title(selectedRois)));
    }
  }
}
