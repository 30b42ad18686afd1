/**
 * Transfer of crust between two meshes (src/reSampling.cpp): every vertex of
 * the receiving planet takes the crust record of the nearest vertex of the
 * source planet, found by a linear scan over squared distances.
 */
module Resampling {
  import opened Options
  import opened Geometry
  import opened Crusts
  import opened Search
  import opened Planets

  /** The squared distance from each point to p, in order. */
  function DistancesTo(points: seq<Vec3>, p: Vec3): (ds: seq<real>)
    ensures |ds| == |points| && forall j :: 0 <= j < |points| ==> ds[j] == SqLen(Sub(points[j], p))
  {
    seq(|points|, j requires 0 <= j < |points| => SqLen(Sub(points[j], p)))
  }

  /** The index of the first point nearest to p; 0 when there are none. */
  function Closest(points: seq<Vec3>, p: Vec3): (k: nat)
    ensures |points| == 0 ==> k == 0
    ensures |points| > 0 ==> k < |points|
    ensures forall j :: 0 <= j < |points| ==> SqLen(Sub(points[k], p)) <= SqLen(Sub(points[j], p))
    ensures forall j :: 0 <= j < k ==> SqLen(Sub(points[k], p)) < SqLen(Sub(points[j], p))
  {
    var ds := DistancesTo(points, p);
    FirstMin(ds)
  }

  /**
   * planet::findclosestVertex: the loop runs over the receiver's vertex count
   * and reads the source's vertices, so the receiver must not have more
   * vertices than the source.
   */
  method FindClosestVertex(receiver: Planet, point: Vec3, src: Planet) returns (k: nat)
    requires |receiver.vertices| <= |src.vertices|
    ensures k == Closest(src.vertices[..|receiver.vertices|], point)
  {
    var n := |receiver.vertices|;
    ghost var ds := DistancesTo(src.vertices[..n], point);
    k := 0;
    // The source starts from FLT_MAX, above every distance: the first vertex is always taken.
    var minDistSq: real := 0.0;
    var i := 0;
    while i < n
      invariant i <= n
      invariant i == 0 ==> k == 0
      invariant i > 0 ==> k < i && minDistSq == ds[k] && k == FirstMin(ds[..i])
      decreases n - i
    {
      var distSq := SqLen(Sub(src.vertices[i], point));
      assert ds[..i + 1][..i] == ds[..i];
      if i == 0 || distSq < minDistSq {
        minDistSq := distSq;
        k := i;
      }
      i := i + 1;
    }
    assert ds[..i] == ds;
  }

  /** The crust array after resample: entry i is replaced when the index found for vertex i names a source record. */
  function Resampled(crust: seq<Option<Crust>>, vertices: seq<Vec3>, srcVertices: seq<Vec3>, srcCrust: seq<Option<Crust>>): (r: seq<Option<Crust>>)
    ensures |r| == |crust|
  {
    seq(|crust|, i requires 0 <= i < |crust| =>
      if i < |vertices| && Closest(srcVertices, vertices[i]) < |srcCrust| then srcCrust[Closest(srcVertices, vertices[i])]
      else crust[i])
  }

  /** Every write of resample lands inside the receiver's crust array. */
  predicate WritesInRange(crust: seq<Option<Crust>>, vertices: seq<Vec3>, srcVertices: seq<Vec3>, srcCrust: seq<Option<Crust>>)
  {
    forall i :: 0 <= i < |vertices| && Closest(srcVertices, vertices[i]) < |srcCrust| ==> i < |crust|
  }

  /**
   * Entry i becomes the record of the first source vertex nearest to vertex i
   * when that record exists; every other entry is kept.
   */
  lemma ResampledRecords(crust: seq<Option<Crust>>, vertices: seq<Vec3>, srcVertices: seq<Vec3>, srcCrust: seq<Option<Crust>>, i: nat)
    requires i < |crust|
    ensures var r := Resampled(crust, vertices, srcVertices, srcCrust);
      && (i >= |vertices| || (|srcVertices| == 0 && |srcCrust| == 0) ==> r[i] == crust[i])
      && (i < |vertices| && |srcVertices| > 0 && |srcVertices| <= |srcCrust| ==>
            exists k :: 0 <= k < |srcVertices| && r[i] == srcCrust[k]
              && (forall j :: 0 <= j < |srcVertices| ==> SqLen(Sub(srcVertices[k], vertices[i])) <= SqLen(Sub(srcVertices[j], vertices[i])))
              && (forall j :: 0 <= j < k ==> SqLen(Sub(srcVertices[k], vertices[i])) < SqLen(Sub(srcVertices[j], vertices[i]))))
  {
    if i < |vertices| && |srcVertices| > 0 && |srcVertices| <= |srcCrust| {
      var k := Closest(srcVertices, vertices[i]);
      assert Resampled(crust, vertices, srcVertices, srcCrust)[i] == srcCrust[k];
    }
  }

  /** A source without vertices yields index 0, so each receiver vertex copies source record 0 when there is one. */
  lemma EmptySourceCopiesFirst(crust: seq<Option<Crust>>, vertices: seq<Vec3>, srcCrust: seq<Option<Crust>>, i: nat)
    requires i < |crust| && i < |vertices| && |srcCrust| > 0
    ensures Resampled(crust, vertices, [], srcCrust)[i] == srcCrust[0]
  {
  }

  /**
   * planet::resample: every vertex of the receiver asks the source for its
   * closest vertex and copies that vertex's crust record when it exists.
   * Vertex positions are not touched.
   */
  method Resample(receiver: Planet, src: Planet)
    requires receiver != src
    requires WritesInRange(receiver.crustData, receiver.vertices, src.vertices, src.crustData)
    modifies receiver`crustData
    ensures receiver.crustData == Resampled(old(receiver.crustData), receiver.vertices, src.vertices, src.crustData)
    ensures receiver.vertices == old(receiver.vertices)
  {
    var vertices := receiver.vertices;
    var crust0 := receiver.crustData;
    var crust := crust0;
    var i := 0;
    while i < |vertices|
      invariant i <= |vertices| && |crust| == |crust0|
      invariant forall j :: 0 <= j < |crust0| ==>
        crust[j] == if j < i then Resampled(crust0, vertices, src.vertices, src.crustData)[j] else crust0[j]
    {
      var closestIndex := FindClosestVertex(src, vertices[i], src);
      assert src.vertices[..|src.vertices|] == src.vertices;
      if closestIndex < |src.crustData| {
        crust := crust[i := src.crustData[closestIndex]];
      }
      i := i + 1;
    }
    assert crust == Resampled(crust0, vertices, src.vertices, src.crustData);
    receiver.crustData := crust;
  }
}
