/**
 * Planet::assignCrustParameters: one crust record per vertex, drawn from a
 * coherent noise field, then the terranes of every plate.
 *
 * The noise generator is a parameter (a function of a point, with values in
 * [-1, 1] by NoiseBounded). A vertex whose base noise is below the continent
 * threshold gets oceanic crust, every other vertex continental crust; the
 * thickness gains a bonus on plate boundaries, where a boundary vertex is one
 * owned by some plate with a triangle neighbour owned by another (or by none).
 */
module CrustParameters {
  import opened Options
  import opened Geometry
  import opened Crusts
  import opened Meshes
  import opened Plates
  import opened Adjacency
  import opened Terranes

  /** A coherent noise generator: a value for every point of space. */
  type Noise = Vec3 -> real

  ghost predicate NoiseBounded(noise: Noise)
  {
    forall q :: -1.0 <= noise(q) <= 1.0
  }

  const ContinentThreshold: real := 0.05

  /** The std::max / std::min pair used to clamp a value to [lo, hi] (lo wins when lo > hi). */
  function ClampReal(x: real, lo: real, hi: real): (r: real)
    ensures r >= lo
    ensures lo <= hi ==> r <= hi
    ensures lo <= x <= hi ==> r == x
  {
    if lo > (if x < hi then x else hi) then lo else if x < hi then x else hi
  }

  /** std::max(0, std::min(3, i)). */
  function ClampIndex(i: int): (r: int)
    ensures 0 <= r <= 3
    ensures 0 <= i <= 3 ==> r == i
    ensures i < 0 ==> r == 0
    ensures i > 3 ==> r == 3
  {
    if i < 0 then 0 else if i > 3 then 3 else i
  }

  /**
   * The orogeny type drawn from a noise sample t: the quarter of [-1, 1] it
   * falls in, with samples outside the range clamped to the nearest quarter.
   */
  function OrogenyOfSample(t: real): (o: OrogenyType)
    ensures t < -0.5 ==> o == Collisional
    ensures -0.5 <= t < 0.0 ==> o == Subduction
    ensures 0.0 <= t < 0.5 ==> o == Rifting
    ensures 0.5 <= t ==> o == NoneType
  {
    var x := (0.5 * (t + 1.0)) * 4.0;
    assert x == 2.0 * t + 2.0;
    OrogenyFromIndex(ClampIndex(x.Floor))
  }

  /** The ocean floor depth: 87.5% of the depth range above the floor at the top of the noise range, clamped to [min, -500]. */
  function OceanicElevation(n: real, minElevation: real): (e: real)
    ensures e >= minElevation && (minElevation <= -500.0 ==> e <= -500.0)
  {
    var normalized := (n + 1.0) / (1.0 + ContinentThreshold);
    ClampReal(minElevation + normalized * (Abs(minElevation) * 0.875), minElevation, -500.0)
  }

  /** The continent height: the normalised noise times the height range, clamped to [0, max]. */
  function ContinentalElevation(n: real, maxElevation: real): (e: real)
    ensures e >= 0.0 && (maxElevation >= 0.0 ==> e <= maxElevation)
  {
    var normalized := (n - ContinentThreshold) / (1.0 - ContinentThreshold);
    ClampReal(normalized * maxElevation, 0.0, maxElevation)
  }

  /** fold_dir *= -1 when the sample is negative; the zero vector stays zero either way. */
  function FlipIfNegative(d: Vec3, sample: real): (r: Vec3)
    ensures r == d || r == Neg(d)
    ensures d == Zero ==> r == Zero
  {
    if sample < 0.0 then Scale(d, -1.0) else d
  }

  /** The oceanic branch: depth and thickness from the normalised noise, age from a second sample. */
  function OceanicRecord(p: Vec3, noise: Noise, isBoundary: bool, minElevation: real): (c: Crust)
    ensures c.OceanicCrust? && !c.rifting && c.ridgeDir == Zero
    ensures c.elevation >= minElevation && (minElevation <= -500.0 ==> c.elevation <= -500.0)
  {
    var normalized := (noise(p) + 1.0) / (1.0 + ContinentThreshold);
    var thickness := 5.0 + 3.0 * normalized + (if isBoundary then 1.5 else 0.0);
    var localNoise := noise(Vec3(p.x * 2.3, p.y * 1.7, p.z * 2.9));
    var age := (0.5 * (localNoise + 1.0)) * 200.0;
    NewOceanic(thickness, OceanicElevation(noise(p), minElevation), age, Zero)
  }

  /** The continental branch: height and thickness from the normalised noise, age and orogeny type from further samples. */
  function ContinentalRecord(p: Vec3, noise: Noise, isBoundary: bool, maxElevation: real): (c: Crust)
    ensures c.ContinentalCrust? && c.foldDir == Zero
    ensures c.elevation >= 0.0 && (maxElevation >= 0.0 ==> c.elevation <= maxElevation)
  {
    var normalized := (noise(p) - ContinentThreshold) / (1.0 - ContinentThreshold);
    var thickness := 30.0 + 30.0 * normalized + (if isBoundary then 10.0 else 0.0);
    var ageNoise := noise(Vec3(p.x * 1.2 + 10.0, p.y * 0.9 + 10.0, p.z * 1.7 + 10.0));
    var orogenyAge := (0.5 * (ageNoise + 1.0)) * 800.0;
    var typeSample := noise(Vec3(p.x * 2.0 + 5.0, p.y * 1.3 + 5.0, p.z * 2.7 + 5.0));
    var fold := FlipIfNegative(Zero, noise(Vec3(p.x * 4.7 + 9.1, p.y * 3.3 + 8.2, p.z * 2.8 + 7.3)));
    NewContinental(thickness, ContinentalElevation(noise(p), maxElevation), orogenyAge, OrogenyOfSample(typeSample), fold)
  }

  /** The record the loop body builds for the vertex at p: oceanic below the continent threshold, continental otherwise. */
  function VertexCrust(p: Vec3, noise: Noise, isBoundary: bool, minElevation: real, maxElevation: real): (c: Crust)
    ensures c.OceanicCrust? <==> noise(p) < ContinentThreshold
    ensures c.OceanicCrust? ==> !c.rifting && c.ridgeDir == Zero
    ensures c.OceanicCrust? ==> c.elevation >= minElevation && (minElevation <= -500.0 ==> c.elevation <= -500.0)
    ensures c.ContinentalCrust? ==> c.foldDir == Zero
    ensures c.ContinentalCrust? ==> c.elevation >= 0.0 && (maxElevation >= 0.0 ==> c.elevation <= maxElevation)
  {
    if noise(p) < ContinentThreshold then OceanicRecord(p, noise, isBoundary, minElevation)
    else ContinentalRecord(p, noise, isBoundary, maxElevation)
  }

  /** With noise in [-1, 1], thicknesses and ages stay in the ranges the normalisation is designed for. */
  lemma CrustRanges(p: Vec3, noise: Noise, isBoundary: bool, minElevation: real, maxElevation: real)
    requires NoiseBounded(noise)
    ensures var c := VertexCrust(p, noise, isBoundary, minElevation, maxElevation);
      && (c.OceanicCrust? ==> 5.0 <= c.thickness < 9.5 && 0.0 <= c.age <= 200.0)
      && (c.ContinentalCrust? ==> 30.0 <= c.thickness <= 70.0 && 0.0 <= c.orogenyAge <= 800.0)
  {
    var n := noise(p);
    assert -1.0 <= n <= 1.0;
    assert -1.0 <= noise(Vec3(p.x * 2.3, p.y * 1.7, p.z * 2.9)) <= 1.0;
    assert -1.0 <= noise(Vec3(p.x * 1.2 + 10.0, p.y * 0.9 + 10.0, p.z * 1.7 + 10.0)) <= 1.0;
  }

  /** The owning plate as the loop over plates records it: the last plate listing v, or -1 when none does. */
  function PlateOf(plates: seq<Plate>, v: nat): (k: int)
    ensures -1 <= k < |plates|
    ensures k >= 0 ==> v in plates[k].vertices && forall q :: k < q < |plates| ==> v !in plates[q].vertices
    ensures k == -1 <==> forall q :: 0 <= q < |plates| ==> v !in plates[q].vertices
  {
    if plates == [] then -1
    else if v in plates[|plates| - 1].vertices then |plates| - 1
    else PlateOf(plates[..|plates| - 1], v)
  }

  /** On a partition, the recorded plate is the owner. */
  lemma PlateOfPartition(plates: seq<Plate>, owner: seq<nat>, n: nat, v: nat)
    requires Partitioned(plates, owner, n) && v < n
    ensures PlateOf(plates, v) == owner[v]
  {
    var k := PlateOf(plates, v);
    assert v in plates[owner[v]].vertices;
  }

  /** The plate_of loop: later plates overwrite earlier ones, indices out of range are skipped. */
  method PlateOwnership(plates: seq<Plate>, n: nat) returns (owner: seq<int>)
    ensures |owner| == n
    ensures forall v :: 0 <= v < n ==> owner[v] == PlateOf(plates, v)
  {
    owner := seq(n, v => -1);
    var p := 0;
    while p < |plates|
      invariant p <= |plates| && |owner| == n
      invariant forall v :: 0 <= v < n ==> owner[v] == PlateOf(plates[..p], v)
    {
      var vs := plates[p].vertices;
      var j := 0;
      while j < |vs|
        invariant j <= |vs| && |owner| == n
        invariant forall v :: 0 <= v < n ==> owner[v] == if v in vs[..j] then p else PlateOf(plates[..p], v)
      {
        assert vs[..j + 1] == vs[..j] + [vs[j]];
        if vs[j] < n {
          owner := owner[vs[j] := p];
        }
        j := j + 1;
      }
      assert vs[..j] == vs;
      assert plates[..p + 1][..p] == plates[..p];
      p := p + 1;
    }
    assert plates[..p] == plates;
  }

  /** A vertex on a plate boundary: owned by some plate, with a triangle neighbour whose owner differs. */
  ghost predicate OnPlateBoundary(plates: seq<Plate>, triangles: seq<Triangle>, n: nat, i: nat)
  {
    PlateOf(plates, i) >= 0 &&
    exists x :: 0 <= x < n && Linked(triangles, n, i, x) && PlateOf(plates, x) != PlateOf(plates, i)
  }

  /** The isBoundary scan over one adjacency list, stopping at the first neighbour on another plate. */
  method BoundaryFlag(owner: seq<int>, nbs: seq<nat>, i: nat) returns (b: bool)
    ensures b <==> (i < |owner| && owner[i] >= 0 &&
                    exists j :: 0 <= j < |nbs| && nbs[j] < |owner| && owner[nbs[j]] != owner[i])
  {
    var mine := if i < |owner| then owner[i] else -1;
    b := false;
    if mine >= 0 {
      var j := 0;
      while j < |nbs|
        invariant j <= |nbs|
        invariant forall k :: 0 <= k < j ==> !(nbs[k] < |owner| && owner[nbs[k]] != mine)
      {
        if nbs[j] < |owner| && owner[nbs[j]] != mine {
          b := true;
          return;
        }
        j := j + 1;
      }
    }
  }

  /** The scan over the rebuilt adjacency agrees with the boundary predicate over triangles and plates. */
  lemma {:induction false} BoundaryAgrees(plates: seq<Plate>, triangles: seq<Triangle>, n: nat,
                                          owner: seq<int>, local: seq<seq<nat>>, i: nat)
    requires |owner| == n && forall v :: 0 <= v < n ==> owner[v] == PlateOf(plates, v)
    requires IsAdjacency(local, [], triangles, n) && i < n
    ensures (owner[i] >= 0 && exists j :: 0 <= j < |local[i]| && local[i][j] < |owner| && owner[local[i][j]] != owner[i])
            <==> OnPlateBoundary(plates, triangles, n, i)
  {
    if owner[i] >= 0 && exists j :: 0 <= j < |local[i]| && local[i][j] < |owner| && owner[local[i][j]] != owner[i] {
      var j :| 0 <= j < |local[i]| && local[i][j] < |owner| && owner[local[i][j]] != owner[i];
      var x := local[i][j];
      assert x in local[i];
      assert Linked(triangles, n, i, x) && PlateOf(plates, x) != PlateOf(plates, i);
    }
    if OnPlateBoundary(plates, triangles, n, i) {
      var x :| 0 <= x < n && Linked(triangles, n, i, x) && PlateOf(plates, x) != PlateOf(plates, i);
      assert x in local[i];
      var j :| 0 <= j < |local[i]| && local[i][j] == x;
      assert local[i][j] < |owner| && owner[local[i][j]] != owner[i];
    }
  }

  /** Entry k of crust is the record VertexCrust builds for vertex k. */
  ghost predicate AssignedUpTo(crust: seq<Option<Crust>>, vertices: seq<Vec3>, plates: seq<Plate>, triangles: seq<Triangle>,
                         noise: Noise, minElevation: real, maxElevation: real)
  {
    |crust| <= |vertices| &&
    forall k :: 0 <= k < |crust| ==>
      crust[k] == Some(VertexCrust(vertices[k], noise, OnPlateBoundary(plates, triangles, |vertices|, k), minElevation, maxElevation))
  }

  /**
   * The per-vertex loop of assignCrustParameters: the crust array is resized to
   * the vertex count and every entry receives the record VertexCrust builds for
   * that vertex, with the boundary flag computed from the plates and triangles.
   */
  method AssignCrust(vertices: seq<Vec3>, plates: seq<Plate>, triangles: seq<Triangle>,
                     noise: Noise, minElevation: real, maxElevation: real)
    returns (crust: seq<Option<Crust>>)
    ensures |crust| == |vertices|
    ensures forall i :: 0 <= i < |crust| ==>
      crust[i] == Some(VertexCrust(vertices[i], noise, OnPlateBoundary(plates, triangles, |vertices|, i), minElevation, maxElevation))
  {
    var n := |vertices|;
    var owner := PlateOwnership(plates, n);
    var local := DetectNeighbors([], triangles, n);
    crust := [];
    var i := 0;
    while i < n
      invariant i <= n && |crust| == i
      invariant AssignedUpTo(crust, vertices, plates, triangles, noise, minElevation, maxElevation)
    {
      var b := BoundaryFlag(owner, local[i], i);
      BoundaryAgrees(plates, triangles, n, owner, local, i);
      ghost var crust0 := crust;
      crust := crust + [Some(VertexCrust(vertices[i], noise, b, minElevation, maxElevation))];
      forall k | 0 <= k <= i
        ensures crust[k] == Some(VertexCrust(vertices[k], noise, OnPlateBoundary(plates, triangles, n, k), minElevation, maxElevation))
      {
        if k < i { assert crust[k] == crust0[k]; }
      }
      i := i + 1;
    }
  }

  /** Every vertex of the planet has a record after the crust assignment. */
  lemma AssignedEverywhere(crust: seq<Option<Crust>>, vertices: seq<Vec3>, plates: seq<Plate>, triangles: seq<Triangle>,
                           noise: Noise, minElevation: real, maxElevation: real, v: nat)
    requires |crust| == |vertices| && v < |crust|
    requires forall i :: 0 <= i < |crust| ==>
      crust[i] == Some(VertexCrust(vertices[i], noise, OnPlateBoundary(plates, triangles, |vertices|, i), minElevation, maxElevation))
    ensures crust[v].Some? && (IsContinental(crust, v) <==> noise(vertices[v]) >= ContinentThreshold)
  {
  }

  /**
   * The closing loop: fillTerranes on every plate. Each plate keeps its other
   * fields and receives terranes and centroids satisfying TerranesOf.
   */
  method FillAllTerranes(plates: seq<Plate>, crust: seq<Option<Crust>>, neighbors: seq<seq<nat>>,
                         vertices: seq<Vec3>, radius: real, m: MathLib)
    returns (r: seq<Plate>)
    ensures |r| == |plates|
    ensures forall p :: 0 <= p < |r| ==>
      r[p] == plates[p].(terranes := r[p].terranes, terraneCentroids := r[p].terraneCentroids)
    ensures forall p :: 0 <= p < |r| ==>
      TerranesOf(plates[p].vertices, crust, neighbors, vertices, radius, m, r[p].terranes, r[p].terraneCentroids)
  {
    r := [];
    var p := 0;
    while p < |plates|
      invariant p <= |plates| && |r| == p
      invariant forall q :: 0 <= q < p ==>
        r[q] == plates[q].(terranes := r[q].terranes, terraneCentroids := r[q].terraneCentroids)
      invariant forall q :: 0 <= q < p ==>
        TerranesOf(plates[q].vertices, crust, neighbors, vertices, radius, m, r[q].terranes, r[q].terraneCentroids)
    {
      var terranes, centroids, groups := FillTerranes(plates[p], crust, neighbors, vertices, radius, m);
      r := r + [plates[p].(terranes := terranes, terraneCentroids := centroids)];
      p := p + 1;
    }
  }
}
