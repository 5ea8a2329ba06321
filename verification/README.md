# CT + RTSTRUCT viewer: contour-to-slice matching, modelled in Dafny

This project models the non-GUI logic of the `AppDICOM` viewer in `App.py`.
The viewer loads one CT slice and one RTSTRUCT structure set. It lists the
regions of interest (ROIs) that have contours on that slice and lets the user
select some of them. It then draws those contours over the CT image, placed
in patient coordinates.

Modules:

- `Wrappers` (`wrappers.dfy`): `Option` for DICOM attributes that may be absent; `Result` for operations that can fail.
- `Dicom` (`dicom.dfy`): the parsed records (`CtImage`, `RtStruct`, `RoiContour`, `ContourItem`, ...). Also `Error`, one constructor per warning or exception the viewer can end in.
- `Contours` (`contours.dfy`): `checkContour`, and the `reshape(-1, 3)` / `[:, :2]` projection of `ContourData`, with its round trips.
- `RoiCatalogue` (`catalogue.dfy`): `getROI` as pure functions, with lemmas about which groups are listed, in what order, and when it fails.
- `Drawing` (`drawing.dfy`): `drawROI` as pure functions, with lemmas about which polygons are drawn.
- `Render` (`render.dfy`): `calculateImageDimensions`, the flipped `imshow` extent, and the title.
- `Viewer` (`viewer.dfy`): the session class `AppDicom`. Its fields are `dicomCt`, `dicomRtstruct`, `roiNames` and `selectedRois`. Its methods are the loads, `getROI` and `drawROI` written as loops, the `selectROI` guard, the `ok` selection callback, and `visualize`.

Python exceptions are modelled as `Err` results, not as preconditions:

- `getROI`'s ValueError when `ROIContourSequence` is absent.
- The IndexError from `self.ROINames[counter]`. The f-string default is evaluated eagerly, so this happens even when the group has its own `ROIName`.
- The IndexError from `ContourImageSequence[0]`.
- The ValueError from `reshape(-1, 3)`.
- `drawROI`'s AttributeError when `ROIContourSequence` is absent.

`getROI` and `drawROI` are specified by functions that recurse on a prefix of the groups (`Catalogue`, `Polygons`). Each loop's invariant says that the function of the part processed so far is the value accumulated so far.

The model follows the code as written, including these behaviours:

- A record of the wrong modality empties its slot. It does not keep the previous record.
- `roiNames` is only ever appended to. After a second RTSTRUCT is catalogued, unnamed groups take their names from the first one (`StaleFallbackNames`).
- A name is listed at most once per group. It can appear again from another group.
- Pixel spacing is not checked. Zero spacing gives a zero-width rectangle (`ZeroSpacingIsDegenerate`).
- `ContourData` is a list of reals, so an empty one is the empty list. It reshapes to no points, and a matching contour with it is drawn as an empty polygon. This is a model choice; the code itself fails here (see "Left out").
- The x extent is `PixelSpacing[0] * Rows` and the y extent is `PixelSpacing[1] * Columns`, exactly as the code computes them.

## Model

| member | source | states |
|---|---|---|
| `Contours.CheckContour` | App.py:163-169 | true exactly when the first referenced image's UID equals the CT's `SOPInstanceUID`; an empty `ContourImageSequence` is an error |
| `Contours.OnlyFirstReferenceCounts` | App.py:169 | referenced images after the first never change the answer |
| `Contours.Triples` | App.py:193 | a list whose length is a multiple of 3 gives a third as many points |
| `Contours.Reshape` | App.py:193 | reshaping succeeds exactly when the length is a multiple of 3, and gives a third as many points |
| `Contours.ReshapeFlatten` | App.py:193 | reshaping the flat list of a point sequence gives back that sequence |
| `Contours.FlattenTriples` | App.py:193 | flattening the reshaped points gives back the coordinate list |
| `Contours.TriplesAt` | App.py:193 | point `j` of the reshaped list is coordinates `3j`, `3j+1`, `3j+2` |
| `Contours.Outline` | App.py:177 | the projection keeps, in order, the x and y of every point |
| `Contours.ContourPolygon` | App.py:193 | a polygon exists exactly when `ContourData` has a length divisible by 3 |
| `Contours.ContourPolygonAt` | App.py:177 | vertex `j` of the drawn polygon is `(ContourData[3j], ContourData[3j+1])` |
| `Contours.ContourPolygonRoundTrip` | App.py:193 | a contour stored from 3D points is drawn as their x, y projection |
| `RoiCatalogue.DefinitionNames` | App.py:101-105 | one name per `StructureSetROISequence` item, in order; none when the sequence is absent |
| `RoiCatalogue.ResolveName` | App.py:110 | the group's own `ROIName`, else `ROINames[k]`; fails whenever `k` is out of range, even if the group has its own name |
| `RoiCatalogue.AnyOnSlice` | App.py:113-117 | the scan of one group can only fail with the IndexError of an item without a referenced image; `AnyOnSliceFirstHit` gives its full answer |
| `RoiCatalogue.GroupOnSlice` | App.py:113 | a group can only fail the scan with that IndexError; a group without `ContourSequence` is not scanned |
| `RoiCatalogue.AnyOnSliceFirstHit` | App.py:113-117 | the scan finds the slice iff some item matches and every earlier item is checkable and does not match; it finds nothing iff no item matches; it fails only on an item without a referenced image |
| `RoiCatalogue.AnyOnSliceWellFormed` | App.py:114-117 | when every item references an image, the scan answers whether some item's first reference is the slice |
| `RoiCatalogue.Catalogue` | App.py:107-117 | a successful listing had a name for every group and lists at most one name per group; a failure is one of the two IndexErrors; `CatalogueIndices` gives its contents |
| `RoiCatalogue.CatalogueStep` | App.py:109-117 | one more group: past the end of `ROINames` the listing fails; otherwise it fails with the group's scan, or adds the group's name when the scan finds the slice, or is unchanged |
| `RoiCatalogue.GetRoiResult` | App.py:108-122 | `getROI` fails with the ValueError exactly when `ROIContourSequence` is absent, otherwise only with the two IndexErrors; a listing has at most one name per group |
| `RoiCatalogue.CatalogueSucceeds` | App.py:107-117 | the listing succeeds iff there are no more groups than names and every group's scan succeeds; it can only fail with the two IndexErrors |
| `RoiCatalogue.CatalogueIndices` | App.py:107-117 | the listing is, in group order, the resolved name of exactly the groups with a contour on the slice, one entry per such group |
| `RoiCatalogue.CatalogueErrPersists` | App.py:109-117 | a failure on one group ends the whole listing with that failure |
| `RoiCatalogue.GetRoiFailsWithoutContours` | App.py:108-120 | `getROI` raises the ValueError exactly when `ROIContourSequence` is absent |
| `RoiCatalogue.CatalogueNamesKnown` | App.py:109-117 | every listed name is a group's own `ROIName` or an entry of `ROINames` |
| `RoiCatalogue.CatalogueIgnoresLaterNames` | App.py:105-110 | names appended after the first one per group do not change the listing |
| `RoiCatalogue.StaleFallbackNames` | App.py:101-111 | once `ROINames` holds a name per group, a new RTSTRUCT's own declared names play no part in its listing |
| `Drawing.GroupPolygons` | App.py:191-194 | a group draws at most one polygon per item, and can only fail with the IndexError or the reshape ValueError; `GroupPolygonsIndices` gives its contents |
| `Drawing.Polygons` | App.py:185-194 | a successful drawing had a name for every group; a failure is the name IndexError, the reference IndexError or the reshape ValueError; `PolygonsIndices` gives its contents |
| `Drawing.DrawResult` | App.py:186 | `drawROI` fails with the AttributeError exactly when `ROIContourSequence` is absent, otherwise only as `Polygons` does |
| `Drawing.GroupPolygonsErrPersists` | App.py:191-194 | a failure on one item ends the group's drawing with that failure |
| `Drawing.PolygonsErrPersists` | App.py:186-194 | a failure on one group ends the drawing with that failure |
| `Drawing.GroupPolygonsSucceed` | App.py:191-194 | a group draws without error iff every item has a referenced image and every matching item's data is triples |
| `Drawing.GroupPolygonsIndices` | App.py:191-194 | one polygon per matching item, in item order, each that item's projected `ContourData` |
| `Drawing.OffSliceDrawsNothing` | App.py:191-194 | a group with no contour on the slice draws nothing |
| `Drawing.OnSliceDrawsSomething` | App.py:191-194 | a group with a contour on the slice draws at least one polygon |
| `Drawing.PolygonsIndices` | App.py:185-194 | the drawing is exactly one polygon per matching item of every group whose resolved name is selected and which has a `ContourSequence`, each that item's projected `ContourData`, in group order and then item order; unselected groups and groups without contours add nothing |
| `Drawing.PolygonsIncludeGroup` | App.py:185-194 | every selected group with a `ContourSequence` draws without error, and its polygons form one contiguous block of the drawing |
| `Drawing.UncataloguedDrawsNothing` | App.py:185-194 | if no selected name is listed for the slice, nothing is drawn |
| `Drawing.CataloguedSelectionDraws` | App.py:185-194 | a selected name that is listed for the slice has a group resolved to that name with a matching item whose polygon is in the drawing |
| `Drawing.SingleContourRoundTrip` | App.py:191-194 | one matching item stored from points `vs` is drawn once, as their x, y projection |
| `Drawing.LungOnSlice` | App.py:107-117 | an ROI "Lung" with a contour on slice "IMG1" is listed and drawn as (0,0), (10,0), (10,10) |
| `Drawing.LungOffSlice` | App.py:186-194 | the same ROI with its contour on "IMG2" is neither listed nor drawn |
| `Render.CalculateImageDimensions` | App.py:202-212 | the rectangle starts at `ImagePositionPatient[0..1]`, with width `PixelSpacing[0]*Rows` and height `PixelSpacing[1]*Columns` |
| `Render.DisplayExtent` | App.py:229 | the image extent is `(x1, x2, y2, y1)`, y flipped |
| `Render.DisplayExtentOrientation` | App.py:228-229 | with positive spacing, left < right and top < bottom, and the top is the patient y origin |
| `Render.ZeroSpacingIsDegenerate` | App.py:204-208 | zero spacing is not rejected and gives a zero-width rectangle |
| `Render.Slice512Extent` | App.py:202-212 | a 512x512 slice with 1 mm pixels at (-100, -100) spans -100..412 on both axes |
| `Render.Join` | App.py:232 | joining one name gives that name; joining none gives the empty string |
| `Render.JoinSnoc` | App.py:232 | joining one more name appends the separator and that name |
| `Render.Title` | App.py:232 | the title is "Selected ROIs: " followed by the selection joined with ", " |
| `Viewer.AppDicom.constructor` | App.py:33-40 | a new session has no records, no ROI names and no selection |
| `Viewer.AppDicom.LoadCT` | App.py:68-80 | a cancelled dialog changes nothing; a CT record is stored; any other modality warns and empties the CT slot |
| `Viewer.AppDicom.LoadRTStruct` | App.py:82-94 | a cancelled dialog changes nothing; an RTSTRUCT record is stored; any other modality warns and empties the RTSTRUCT slot |
| `Viewer.ScanContours` | App.py:113-117 | the inner loop of `getROI` returns exactly the scan's answer: true at the first matching item, false when none matches, the IndexError at an item without a referenced image |
| `Viewer.AppDicom.GetROI` | App.py:96-122 | appends the declared names to `roiNames`, even when the listing then fails, and returns the listing for the new `roiNames` |
| `Viewer.AppDicom.SelectROI` | App.py:124-143 | one warning per missing record, leaving `roiNames` alone; otherwise the outcome of `getROI` |
| `Viewer.AppDicom.ConfirmSelection` | App.py:155-158 | the selection becomes the listed names at the chosen positions, in that order |
| `Viewer.AppDicom.DrawROI` | App.py:180-194 | returns exactly `DrawResult`: the polygons `PolygonsIndices` characterises, or the error `DrawResult` and `PolygonsErrPersists` describe |
| `Viewer.AppDicom.Visualize` | App.py:214-234 | returns the NotReady warning without a CT, an RTSTRUCT or a selection; otherwise the CT pixels at the flipped extent, the drawn polygons and the title, or the drawing's error; the session is not changed |

## Left out

- Tkinter widgets, the main loop, `messagebox` warnings and `print` diagnostics. Warnings are `Err` values; load warnings are a returned flag.
- File dialogs and `pydicom.dcmread`. The loads take the parsed record, or `None` for a cancelled dialog.
- Matplotlib calls (`imshow`, `Polygon`, `add_patch`, `set_title`, `canvas.draw`, clearing the axes). `Visualize` returns a `Scene` value instead. Matplotlib closing each outline is not modelled.
- The contents of `pixel_array`. They are carried through unchanged.
- IEEE floating point. Coordinates and spacing are `real`.
- What an uncaught exception leaves behind. Tk prints a traceback, and a failed `visualize` has already cleared the figure. The model only returns the `Err`.
- Attributes that the code reads without a presence check are always present in the records: `Modality`, `ROIName` of a structure-set item, `Rows`, `Columns`, `PixelSpacing`, `ImagePositionPatient`, `SOPInstanceUID`, `ReferencedSOPInstanceUID` of a contour image (App.py:169) and `ContourData` of a contour item (App.py:193). An absent `ContourImageSequence` is treated like an empty one: the source raises AttributeError rather than IndexError, but the operation ends either way.
- An empty `ContourData`. The DICOM parser gives `None` for an empty decimal-string attribute, and `np.array(None).reshape(-1, 3)` at App.py:193 raises ValueError. The model's `ContourData` is a list of reals and cannot be `None`, so it reshapes the empty list instead and draws an empty polygon.
- `Viewer.AppDicom.ConfirmSelection`: accepts any in-range positions. The listbox's `curselection` always gives distinct positions in ascending order; that restriction is not stated.
- `visualize` idempotence has no separate lemma. `Visualize` has no `modifies` clause, so its result is fixed by the session state.
