/** Matching a contour item to the loaded CT slice, and turning its flat
    `ContourData` into a 2D outline. */
module Contours {
  import opened Wrappers
  import opened Dicom

  /** `checkContour`: does the contour's first referenced image name this CT
      slice? Indexing an empty `ContourImageSequence` is an error. */
  function CheckContour(item: ContourItem, ct: CtImage): (r: Result<bool, Error>)
    ensures r.Ok? <==> |item.contourImageSequence| > 0
    ensures r.Ok? ==> (r.value <==> item.contourImageSequence[0].referencedSopInstanceUid == ct.sopInstanceUid)
    ensures r.Err? ==> r.error == NoReferencedImage
  {
    if |item.contourImageSequence| == 0 then Err(NoReferencedImage)
    else Ok(item.contourImageSequence[0].referencedSopInstanceUid == ct.sopInstanceUid)
  }

  /** Only the first referenced image decides; the others are never looked at. */
  lemma OnlyFirstReferenceCounts(item: ContourItem, more: seq<ContourImage>, ct: CtImage)
    requires |item.contourImageSequence| > 0
    ensures CheckContour(ContourItem(item.contourImageSequence + more, item.contourData), ct)
         == CheckContour(item, ct)
  {
  }

  datatype Vertex = Vertex(x: real, y: real, z: real)
  datatype Point = Point(x: real, y: real)

  /** The flat coordinate list that a sequence of 3D points is stored as. */
  function Flatten(vs: seq<Vertex>): (data: seq<real>)
    ensures |data| == 3 * |vs|
  {
    if vs == [] then [] else [vs[0].x, vs[0].y, vs[0].z] + Flatten(vs[1..])
  }

  /** The rows of `reshape(-1, 3)` on a list whose length is a multiple of 3. */
  function Triples(data: seq<real>): (vs: seq<Vertex>)
    requires |data| % 3 == 0
    ensures 3 * |vs| == |data|
  {
    if data == [] then [] else [Vertex(data[0], data[1], data[2])] + Triples(data[3..])
  }

  /** `np.array(ContourData).reshape(-1, 3)`: fails unless the length is a multiple of 3. */
  function Reshape(data: seq<real>): (r: Result<seq<Vertex>, Error>)
    ensures r.Ok? <==> |data| % 3 == 0
    ensures r.Ok? ==> 3 * |r.value| == |data|
    ensures r.Err? ==> r.error == ContourDataNotTriples
  {
    if |data| % 3 == 0 then Ok(Triples(data)) else Err(ContourDataNotTriples)
  }

  /** Reshaping undoes flattening. */
  lemma {:induction false} ReshapeFlatten(vs: seq<Vertex>)
    ensures Reshape(Flatten(vs)) == Ok(vs)
  {
    if vs != [] {
      ReshapeFlatten(vs[1..]);
      var data := Flatten(vs);
      assert data[3..] == Flatten(vs[1..]);
      assert Triples(data) == [vs[0]] + Triples(data[3..]);
      assert [vs[0]] + vs[1..] == vs;
    }
  }

  /** Flattening undoes reshaping. */
  lemma {:induction false} FlattenTriples(data: seq<real>)
    requires |data| % 3 == 0
    ensures Flatten(Triples(data)) == data
  {
    if data != [] {
      FlattenTriples(data[3..]);
      var vs := Triples(data);
      assert vs[1..] == Triples(data[3..]);
    }
  }

  /** Row `j` of the reshaped list holds the coordinates `3j`, `3j+1`, `3j+2`. */
  lemma {:induction false} TriplesAt(data: seq<real>, j: nat)
    requires |data| % 3 == 0 && 3 * j < |data|
    ensures j < |Triples(data)|
    ensures Triples(data)[j] == Vertex(data[3 * j], data[3 * j + 1], data[3 * j + 2])
  {
    if j > 0 {
      TriplesAt(data[3..], j - 1);
    }
  }

  /** `[:, :2]`: keep the x and y of every point, in order. */
  function Outline(vs: seq<Vertex>): (ps: seq<Point>)
    ensures |ps| == |vs|
    ensures forall j :: 0 <= j < |vs| ==> ps[j] == Point(vs[j].x, vs[j].y)
  {
    if vs == [] then [] else [Point(vs[0].x, vs[0].y)] + Outline(vs[1..])
  }

  /** The polygon `drawContour` draws for a contour's `ContourData`. */
  function ContourPolygon(data: seq<real>): (r: Result<seq<Point>, Error>)
    ensures r.Ok? <==> |data| % 3 == 0
    ensures r.Err? ==> r.error == ContourDataNotTriples
  {
    match Reshape(data)
    case Err(e) => Err(e)
    case Ok(vs) => Ok(Outline(vs))
  }

  /** Point `j` of the polygon is `(ContourData[3j], ContourData[3j+1])`. */
  lemma ContourPolygonAt(data: seq<real>, j: nat)
    requires |data| % 3 == 0 && 3 * j < |data|
    ensures ContourPolygon(data).Ok?
    ensures 3 * |ContourPolygon(data).value| == |data|
    ensures ContourPolygon(data).value[j] == Point(data[3 * j], data[3 * j + 1])
  {
    TriplesAt(data, j);
  }

  /** A contour stored from 3D points is drawn as exactly their x, y projection. */
  lemma ContourPolygonRoundTrip(vs: seq<Vertex>)
    ensures ContourPolygon(Flatten(vs)) == Ok(Outline(vs))
  {
    ReshapeFlatten(vs);
  }
}
