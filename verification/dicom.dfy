/** The parsed DICOM records the viewer reads, restricted to the attributes it
    uses, and the failures its operations can end in. */
module Dicom {
  import opened Wrappers

  /** A CT image record. `PixelSpacing` has two values and
      `ImagePositionPatient` three, so they are tuples here. */
  datatype CtImage = CtImage(
    modality: string,
    rows: nat,
    columns: nat,
    pixelSpacing: (real, real),
    imagePositionPatient: (real, real, real),
    pixelArray: seq<seq<int>>,
    sopInstanceUid: string)

  /** An item of `StructureSetROISequence`. */
  datatype StructureSetRoi = StructureSetRoi(roiName: string)

  /** An item of a contour's `ContourImageSequence`. */
  datatype ContourImage = ContourImage(referencedSopInstanceUid: string)

  /** An item of a group's `ContourSequence`: the images it refers to and the
      flat list of x, y, z patient coordinates. */
  datatype ContourItem = ContourItem(contourImageSequence: seq<ContourImage>, contourData: seq<real>)

  /** An item of `ROIContourSequence`; both attributes may be absent. */
  datatype RoiContour = RoiContour(roiName: Option<string>, contourSequence: Option<seq<ContourItem>>)

  /** An RTSTRUCT record. */
  datatype RtStruct = RtStruct(
    modality: string,
    structureSetRoiSequence: Option<seq<StructureSetRoi>>,
    roiContourSequence: Option<seq<RoiContour>>)

  /** Why an operation stopped: a warning the viewer shows, or an exception it raises. */
  datatype Error =
    | MissingCtAndRtstruct      // selectROI warning: neither record loaded
    | MissingCt                 // selectROI warning: no CT loaded
    | MissingRtstruct           // selectROI warning: no RTSTRUCT loaded
    | NoRoiContourSequence      // getROI raises ValueError
    | RoiNameIndexOutOfRange    // IndexError on ROINames[counter]
    | NoReferencedImage         // IndexError on ContourImageSequence[0]
    | ContourDataNotTriples     // ValueError from reshape(-1, 3)
    | RoiContourSequenceAbsent  // AttributeError in drawROI
    | NotReady                  // visualize warning: a record or the selection is missing
}
