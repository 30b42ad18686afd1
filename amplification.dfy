/**
 * Terrain amplification (src/amplification.h): every triangle of the mesh is
 * cut into four. Each old triangle contributes its own six vertices (its three
 * corners and its three edge midpoints), with normals and colours, and four
 * triangles over them; the planet's arrays are replaced by the new ones, the
 * crust is reset to one oceanic record per new vertex and every vertex is
 * given to plate 0. Adjacency and crust parameters are then recomputed.
 *
 * The noise displacement of Amplification::addNoise is not called by
 * amplifyTerrain and is not modelled. Planet::recomputeNormals, which
 * amplifyTerrain calls after the reset, is not part of this model, so the
 * normals the operation leaves are not stated; the subdivision step alone
 * states the interpolated normals it builds.
 */
module Amplification {
  import opened Options
  import opened Geometry
  import opened Crusts
  import opened Meshes
  import opened Adjacency
  import opened CrustParameters
  import opened Planets
  import opened Terranes

  /** The thickness of the oceanic records built for the new vertices. */
  const ResetThickness: real := 7.0

  // ---------------------------------------------------------------------------
  // Blocks of entries, one block per old triangle

  /** The blocks laid end to end, in order. */
  function Flatten<X>(groups: seq<seq<X>>): seq<X>
    decreases |groups|
  {
    if groups == [] then [] else Flatten(groups[..|groups| - 1]) + groups[|groups| - 1]
  }

  lemma {:induction false} FlattenLength<X>(groups: seq<seq<X>>, w: nat)
    requires forall i :: 0 <= i < |groups| ==> |groups[i]| == w
    ensures |Flatten(groups)| == w * |groups|
    decreases |groups|
  {
    if groups != [] {
      var n := |groups| - 1;
      FlattenLength(groups[..n], w);
      assert w * (n + 1) == w * n + w;
    }
  }

  /** Entry k of block t sits at w * t + k when every block has w entries. */
  lemma {:induction false} FlattenAt<X>(groups: seq<seq<X>>, w: nat, t: nat, k: nat)
    requires forall i :: 0 <= i < |groups| ==> |groups[i]| == w
    requires t < |groups| && k < w
    ensures w * t + k < |Flatten(groups)| && Flatten(groups)[w * t + k] == groups[t][k]
    decreases |groups|
  {
    var n := |groups| - 1;
    var init := groups[..n];
    FlattenLength(init, w);
    FlattenLength(groups, w);
    if t < n {
      FlattenAt(init, w, t, k);
    } else {
      assert w * t == w * n;
    }
  }

  lemma FlattenAppend<X>(groups: seq<seq<X>>, b: seq<X>)
    ensures Flatten(groups + [b]) == Flatten(groups) + b
  {
    assert (groups + [b])[..|groups|] == groups;
  }

  // ---------------------------------------------------------------------------
  // The six vertices of one old triangle

  /** The edge midpoint as amplifyTerrain computes it: (a + b) * radius, normalised. */
  function Midpoint(a: Vec3, b: Vec3, radius: real, m: MathLib): Vec3
  {
    Normalize(Scale(Add(a, b), radius), m)
  }

  /** p0, p1, p2, p01, p12, p20 */
  function PositionBlock(vertices: seq<Vec3>, tri: Triangle, radius: real, m: MathLib): (r: seq<Vec3>)
    requires tri.v0 < |vertices| && tri.v1 < |vertices| && tri.v2 < |vertices|
    ensures |r| == 6
  {
    var p0 := vertices[tri.v0];
    var p1 := vertices[tri.v1];
    var p2 := vertices[tri.v2];
    [p0, p1, p2, Midpoint(p0, p1, radius, m), Midpoint(p1, p2, radius, m), Midpoint(p2, p0, radius, m)]
  }

  /** n0, n1, n2 and the normalised sums of each pair. */
  function NormalBlock(normals: seq<Vec3>, tri: Triangle, m: MathLib): (r: seq<Vec3>)
    requires tri.v0 < |normals| && tri.v1 < |normals| && tri.v2 < |normals|
    ensures |r| == 6
  {
    var n0 := normals[tri.v0];
    var n1 := normals[tri.v1];
    var n2 := normals[tri.v2];
    [n0, n1, n2, Normalize(Add(n0, n1), m), Normalize(Add(n1, n2), m), Normalize(Add(n2, n0), m)]
  }

  /** c0, c1, c2 and the averages of each pair. */
  function ColorBlock(colors: seq<Vec3>, tri: Triangle): (r: seq<Vec3>)
    requires tri.v0 < |colors| && tri.v1 < |colors| && tri.v2 < |colors|
    ensures |r| == 6
  {
    var c0 := colors[tri.v0];
    var c1 := colors[tri.v1];
    var c2 := colors[tri.v2];
    [c0, c1, c2, Scale(Add(c0, c1), 0.5), Scale(Add(c1, c2), 0.5), Scale(Add(c2, c0), 0.5)]
  }

  /** The three corner triangles and the central one over the six vertices from b. */
  function TriangleBlock(b: nat): (r: seq<Triangle>)
    ensures |r| == 4
  {
    [Triangle(b, b + 3, b + 5), Triangle(b + 1, b + 4, b + 3), Triangle(b + 2, b + 5, b + 4), Triangle(b + 3, b + 4, b + 5)]
  }

  function PositionBlocks(vertices: seq<Vec3>, triangles: seq<Triangle>, radius: real, m: MathLib): (r: seq<seq<Vec3>>)
    requires IndexedBy(triangles, |vertices|)
    ensures |r| == |triangles| && forall t :: 0 <= t < |r| ==> |r[t]| == 6
  {
    seq(|triangles|, t requires 0 <= t < |triangles| => PositionBlock(vertices, triangles[t], radius, m))
  }

  function NormalBlocks(normals: seq<Vec3>, triangles: seq<Triangle>, m: MathLib): (r: seq<seq<Vec3>>)
    requires IndexedBy(triangles, |normals|)
    ensures |r| == |triangles| && forall t :: 0 <= t < |r| ==> |r[t]| == 6
  {
    seq(|triangles|, t requires 0 <= t < |triangles| => NormalBlock(normals, triangles[t], m))
  }

  function ColorBlocks(colors: seq<Vec3>, triangles: seq<Triangle>): (r: seq<seq<Vec3>>)
    requires IndexedBy(triangles, |colors|)
    ensures |r| == |triangles| && forall t :: 0 <= t < |r| ==> |r[t]| == 6
  {
    seq(|triangles|, t requires 0 <= t < |triangles| => ColorBlock(colors, triangles[t]))
  }

  function TriangleBlocks(count: nat): (r: seq<seq<Triangle>>)
    ensures |r| == count && forall t :: 0 <= t < |r| ==> |r[t]| == 4
  {
    seq(count, t requires 0 <= t < count => TriangleBlock(6 * t))
  }

  /** The oceanic record amplifyTerrain gives a new vertex: thickness 7, elevation its height above the radius. */
  function ResetCrust(p: Vec3, radius: real, m: MathLib): (c: Crust)
    ensures c.Type() == Oceanic && c.thickness == ResetThickness && c.elevation == Length(p, m) - radius
    ensures c.age == 0.0 && c.ridgeDir == Zero && !c.rifting
  {
    OceanicCrust(ResetThickness, Length(p, m) - radius, 0.0, Zero, false)
  }

  // ---------------------------------------------------------------------------
  // What the new arrays hold

  /** Six vertices, normals and colours per old triangle, four triangles, all indexing the new vertices. */
  lemma SubdivisionSizes(vertices: seq<Vec3>, normals: seq<Vec3>, colors: seq<Vec3>, triangles: seq<Triangle>,
                         radius: real, m: MathLib)
    requires IndexedBy(triangles, |vertices|) && IndexedBy(triangles, |normals|) && IndexedBy(triangles, |colors|)
    ensures |Flatten(PositionBlocks(vertices, triangles, radius, m))| == 6 * |triangles|
    ensures |Flatten(NormalBlocks(normals, triangles, m))| == 6 * |triangles|
    ensures |Flatten(ColorBlocks(colors, triangles))| == 6 * |triangles|
    ensures |Flatten(TriangleBlocks(|triangles|))| == 4 * |triangles|
    ensures IndexedBy(Flatten(TriangleBlocks(|triangles|)), 6 * |triangles|)
  {
    FlattenLength(PositionBlocks(vertices, triangles, radius, m), 6);
    FlattenLength(NormalBlocks(normals, triangles, m), 6);
    FlattenLength(ColorBlocks(colors, triangles), 6);
    FlattenLength(TriangleBlocks(|triangles|), 4);
    SubdividedTrianglesIndexed(|triangles|);
  }

  /** The new triangles index the new vertices. */
  lemma SubdividedTrianglesIndexed(count: nat)
    ensures IndexedBy(Flatten(TriangleBlocks(count)), 6 * count)
  {
    var blocks := TriangleBlocks(count);
    var tris := Flatten(blocks);
    FlattenLength(blocks, 4);
    forall i | 0 <= i < |tris|
      ensures tris[i].v0 < 6 * count && tris[i].v1 < 6 * count && tris[i].v2 < 6 * count
    {
      var t := i / 4;
      var k := i % 4;
      assert i == 4 * t + k;
      TriangleInBlock(count, t, k);
    }
  }

  /** Triangle 4t + k uses only the six vertices 6t .. 6t + 5 of old triangle t. */
  lemma TriangleInBlock(count: nat, t: nat, k: nat)
    requires t < count && k < 4
    ensures var tris := Flatten(TriangleBlocks(count));
      && 4 * t + k < |tris|
      && 6 * t <= tris[4 * t + k].v0 < 6 * t + 6
      && 6 * t <= tris[4 * t + k].v1 < 6 * t + 6
      && 6 * t <= tris[4 * t + k].v2 < 6 * t + 6
  {
    FlattenAt(TriangleBlocks(count), 4, t, k);
  }

  /** Entries 6t, 6t + 1 and 6t + 2 of the new vertices are the corners of old triangle t. */
  lemma CornersKept(vertices: seq<Vec3>, triangles: seq<Triangle>, radius: real, m: MathLib, t: nat)
    requires IndexedBy(triangles, |vertices|) && t < |triangles|
    ensures var r := Flatten(PositionBlocks(vertices, triangles, radius, m));
      && 6 * t + 2 < |r|
      && r[6 * t] == vertices[triangles[t].v0]
      && r[6 * t + 1] == vertices[triangles[t].v1]
      && r[6 * t + 2] == vertices[triangles[t].v2]
  {
    var blocks := PositionBlocks(vertices, triangles, radius, m);
    FlattenAt(blocks, 6, t, 0);
    FlattenAt(blocks, 6, t, 1);
    FlattenAt(blocks, 6, t, 2);
  }

  /** Each midpoint colour is the average of the colours at the two ends of its edge. */
  lemma MidpointColorsAveraged(colors: seq<Vec3>, triangles: seq<Triangle>, t: nat)
    requires IndexedBy(triangles, |colors|) && t < |triangles|
    ensures var r := Flatten(ColorBlocks(colors, triangles));
      var tri := triangles[t];
      && 6 * t + 5 < |r|
      && r[6 * t + 3] == Scale(Add(colors[tri.v0], colors[tri.v1]), 0.5)
      && r[6 * t + 4] == Scale(Add(colors[tri.v1], colors[tri.v2]), 0.5)
      && r[6 * t + 5] == Scale(Add(colors[tri.v2], colors[tri.v0]), 0.5)
  {
    var blocks := ColorBlocks(colors, triangles);
    FlattenAt(blocks, 6, t, 3);
    FlattenAt(blocks, 6, t, 4);
    FlattenAt(blocks, 6, t, 5);
  }

  /** A midpoint of two ends that do not cancel lies on the unit sphere, for any radius but 0. */
  lemma MidpointIsUnit(a: Vec3, b: Vec3, radius: real, m: MathLib)
    requires Lawful(m) && radius != 0.0 && Add(a, b) != Zero
    ensures SqLen(Midpoint(a, b, radius, m)) == 1.0
  {
    var s := Add(a, b);
    assert Scale(s, radius) != Zero by {
      if s.x != 0.0 {
        NonZeroProduct(s.x, radius);
      } else if s.y != 0.0 {
        NonZeroProduct(s.y, radius);
      } else {
        NonZeroProduct(s.z, radius);
      }
    }
    NormalizeIsUnit(Scale(s, radius), m);
  }

  lemma {:induction false} NonZeroProduct(x: real, r: real)
    requires x != 0.0 && r != 0.0
    ensures x * r != 0.0
  {
    var ax := if x > 0.0 then x else -x;
    var ar := if r > 0.0 then r else -r;
    PositiveProduct(ax, ar, ax * ar);
    assert ax * ar == x * r || ax * ar == -(x * r);
  }

  /**
   * The midpoints are normalised after the scaling by the radius, so each new
   * midpoint vertex whose edge ends do not cancel lies on the unit sphere,
   * whatever the radius of the corners.
   */
  lemma MidpointsOnUnitSphere(vertices: seq<Vec3>, triangles: seq<Triangle>, radius: real, m: MathLib, t: nat)
    requires Lawful(m) && IndexedBy(triangles, |vertices|) && t < |triangles| && radius != 0.0
    ensures var r := Flatten(PositionBlocks(vertices, triangles, radius, m));
      var tri := triangles[t];
      && 6 * t + 5 < |r|
      && (Add(vertices[tri.v0], vertices[tri.v1]) != Zero ==> SqLen(r[6 * t + 3]) == 1.0)
      && (Add(vertices[tri.v1], vertices[tri.v2]) != Zero ==> SqLen(r[6 * t + 4]) == 1.0)
      && (Add(vertices[tri.v2], vertices[tri.v0]) != Zero ==> SqLen(r[6 * t + 5]) == 1.0)
  {
    var blocks := PositionBlocks(vertices, triangles, radius, m);
    var tri := triangles[t];
    FlattenAt(blocks, 6, t, 3);
    FlattenAt(blocks, 6, t, 4);
    FlattenAt(blocks, 6, t, 5);
    if Add(vertices[tri.v0], vertices[tri.v1]) != Zero {
      MidpointIsUnit(vertices[tri.v0], vertices[tri.v1], radius, m);
    }
    if Add(vertices[tri.v1], vertices[tri.v2]) != Zero {
      MidpointIsUnit(vertices[tri.v1], vertices[tri.v2], radius, m);
    }
    if Add(vertices[tri.v2], vertices[tri.v0]) != Zero {
      MidpointIsUnit(vertices[tri.v2], vertices[tri.v0], radius, m);
    }
  }

  // ---------------------------------------------------------------------------
  // The operation

  /** The vertex, colour and triangle arrays are the subdivision of the old ones. */
  predicate SubdividedMesh(vertices: seq<Vec3>, colors: seq<Vec3>, triangles: seq<Triangle>,
                           v0: seq<Vec3>, c0: seq<Vec3>, t0: seq<Triangle>, radius: real, m: MathLib)
  {
    && IndexedBy(t0, |v0|) && IndexedBy(t0, |c0|)
    && vertices == Flatten(PositionBlocks(v0, t0, radius, m))
    && colors == Flatten(ColorBlocks(c0, t0))
    && triangles == Flatten(TriangleBlocks(|t0|))
  }

  /** The four mesh arrays are the subdivision of the old ones. */
  predicate Subdivided(vertices: seq<Vec3>, normals: seq<Vec3>, colors: seq<Vec3>, triangles: seq<Triangle>,
                       v0: seq<Vec3>, n0: seq<Vec3>, c0: seq<Vec3>, t0: seq<Triangle>, radius: real, m: MathLib)
  {
    && SubdividedMesh(vertices, colors, triangles, v0, c0, t0, radius, m)
    && IndexedBy(t0, |n0|) && normals == Flatten(NormalBlocks(n0, t0, m))
  }

  /** One reset oceanic record per vertex, and every vertex on plate 0. */
  predicate Reset(crust: seq<Option<Crust>>, owner: seq<nat>, vertices: seq<Vec3>, radius: real, m: MathLib)
  {
    && |crust| == |vertices| && (forall i :: 0 <= i < |vertices| ==> crust[i] == Some(ResetCrust(vertices[i], radius, m)))
    && |owner| == |vertices| && (forall i :: 0 <= i < |vertices| ==> owner[i] == 0)
  }

  /** The subdivision loop of amplifyTerrain and the replacement and reset of the planet's arrays. */
  method Subdivide(planet: Planet, m: MathLib)
    requires IndexedBy(planet.triangles, |planet.vertices|)
    requires IndexedBy(planet.triangles, |planet.normals|) && IndexedBy(planet.triangles, |planet.colors|)
    modifies planet`vertices, planet`normals, planet`colors, planet`triangles, planet`crustData, planet`verticesToPlates
    ensures Subdivided(planet.vertices, planet.normals, planet.colors, planet.triangles,
                       old(planet.vertices), old(planet.normals), old(planet.colors), old(planet.triangles), planet.radius, m)
    ensures Reset(planet.crustData, planet.verticesToPlates, planet.vertices, planet.radius, m)
  {
    var newVertices, newNormals, newColors, newTriangles :=
      SubdivideArrays(planet.vertices, planet.normals, planet.colors, planet.triangles, planet.radius, m);
    planet.vertices, planet.normals, planet.colors, planet.triangles := newVertices, newNormals, newColors, newTriangles;
    ResetArrays(planet, m);
  }

  /** The loop of amplifyTerrain over the old triangles, pushing six vertices and four triangles for each. */
  method SubdivideArrays(vertices: seq<Vec3>, normals: seq<Vec3>, colors: seq<Vec3>, triangles: seq<Triangle>,
                         radius: real, m: MathLib)
    returns (newVertices: seq<Vec3>, newNormals: seq<Vec3>, newColors: seq<Vec3>, newTriangles: seq<Triangle>)
    requires IndexedBy(triangles, |vertices|) && IndexedBy(triangles, |normals|) && IndexedBy(triangles, |colors|)
    ensures newVertices == Flatten(PositionBlocks(vertices, triangles, radius, m))
    ensures newNormals == Flatten(NormalBlocks(normals, triangles, m))
    ensures newColors == Flatten(ColorBlocks(colors, triangles))
    ensures newTriangles == Flatten(TriangleBlocks(|triangles|))
  {
    newVertices, newNormals, newColors, newTriangles := [], [], [], [];
    assert TriangleBlocks(0) == [] && PositionBlocks(vertices, triangles[..0], radius, m) == [];
    assert NormalBlocks(normals, triangles[..0], m) == [] && ColorBlocks(colors, triangles[..0]) == [];
    var t := 0;
    while t < |triangles|
      invariant t <= |triangles|
      invariant newVertices == Flatten(PositionBlocks(vertices, triangles[..t], radius, m))
      invariant newNormals == Flatten(NormalBlocks(normals, triangles[..t], m))
      invariant newColors == Flatten(ColorBlocks(colors, triangles[..t]))
      invariant newTriangles == Flatten(TriangleBlocks(t))
    {
      var tri := triangles[t];
      PositionStep(vertices, triangles, radius, m, t);
      NormalStep(normals, triangles, m, t);
      ColorStep(colors, triangles, t);
      TriangleStep(t);
      var base := |newVertices|;
      assert base == 6 * t;
      newVertices := newVertices + PositionBlock(vertices, tri, radius, m);
      newNormals := newNormals + NormalBlock(normals, tri, m);
      newColors := newColors + ColorBlock(colors, tri);
      newTriangles := newTriangles + TriangleBlock(base);
      t := t + 1;
    }
    assert triangles[..t] == triangles;
  }

  /** Pushing the six positions of triangle t extends the vertices built from the first t triangles. */
  lemma PositionStep(vertices: seq<Vec3>, triangles: seq<Triangle>, radius: real, m: MathLib, t: nat)
    requires IndexedBy(triangles, |vertices|) && t < |triangles|
    ensures |Flatten(PositionBlocks(vertices, triangles[..t], radius, m))| == 6 * t
    ensures Flatten(PositionBlocks(vertices, triangles[..t + 1], radius, m))
      == Flatten(PositionBlocks(vertices, triangles[..t], radius, m)) + PositionBlock(vertices, triangles[t], radius, m)
  {
    var blocks := PositionBlocks(vertices, triangles[..t], radius, m);
    var b := PositionBlock(vertices, triangles[t], radius, m);
    FlattenLength(blocks, 6);
    assert PositionBlocks(vertices, triangles[..t + 1], radius, m) == blocks + [b];
    FlattenAppend(blocks, b);
  }

  lemma NormalStep(normals: seq<Vec3>, triangles: seq<Triangle>, m: MathLib, t: nat)
    requires IndexedBy(triangles, |normals|) && t < |triangles|
    ensures Flatten(NormalBlocks(normals, triangles[..t + 1], m))
      == Flatten(NormalBlocks(normals, triangles[..t], m)) + NormalBlock(normals, triangles[t], m)
  {
    var blocks := NormalBlocks(normals, triangles[..t], m);
    var b := NormalBlock(normals, triangles[t], m);
    assert NormalBlocks(normals, triangles[..t + 1], m) == blocks + [b];
    FlattenAppend(blocks, b);
  }

  lemma ColorStep(colors: seq<Vec3>, triangles: seq<Triangle>, t: nat)
    requires IndexedBy(triangles, |colors|) && t < |triangles|
    ensures Flatten(ColorBlocks(colors, triangles[..t + 1])) == Flatten(ColorBlocks(colors, triangles[..t])) + ColorBlock(colors, triangles[t])
  {
    var blocks := ColorBlocks(colors, triangles[..t]);
    var b := ColorBlock(colors, triangles[t]);
    assert ColorBlocks(colors, triangles[..t + 1]) == blocks + [b];
    FlattenAppend(blocks, b);
  }

  lemma TriangleStep(t: nat)
    ensures Flatten(TriangleBlocks(t + 1)) == Flatten(TriangleBlocks(t)) + TriangleBlock(6 * t)
  {
    assert TriangleBlocks(t + 1) == TriangleBlocks(t) + [TriangleBlock(6 * t)];
    FlattenAppend(TriangleBlocks(t), TriangleBlock(6 * t));
  }

  /** crust_data rebuilt with one oceanic record per vertex; verticesToPlates resized with every entry 0. */
  method ResetArrays(planet: Planet, m: MathLib)
    modifies planet`crustData, planet`verticesToPlates
    ensures Reset(planet.crustData, planet.verticesToPlates, planet.vertices, planet.radius, m)
  {
    var crust: seq<Option<Crust>> := [];
    var i := 0;
    while i < |planet.vertices|
      invariant i <= |planet.vertices| && |crust| == i
      invariant forall j :: 0 <= j < i ==> crust[j] == Some(ResetCrust(planet.vertices[j], planet.radius, m))
    {
      crust := crust + [Some(OceanicCrust(ResetThickness, Length(planet.vertices[i], m) - planet.radius, 0.0, Zero, false))];
      i := i + 1;
    }
    planet.crustData := crust;
    planet.verticesToPlates := seq(|planet.vertices|, _ => 0);
  }

  /**
   * Amplification::amplifyTerrain: subdivide, reset, then rebuild adjacency
   * (the lists of the coarse mesh are kept and extended, as
   * detectVerticesNeighbors only resizes them) and the crust parameters.
   */
  method AmplifyTerrain(planet: Planet, noise: Noise, m: MathLib)
    requires IndexedBy(planet.triangles, |planet.vertices|)
    requires IndexedBy(planet.triangles, |planet.normals|) && IndexedBy(planet.triangles, |planet.colors|)
    modifies planet`vertices, planet`normals, planet`triangleNormals, planet`colors, planet`triangles
    modifies planet`neighbors, planet`plates, planet`verticesToPlates, planet`crustData
    ensures planet.radius == old(planet.radius) && planet.isSphere == old(planet.isSphere)
    ensures planet.minElevation == old(planet.minElevation) && planet.maxElevation == old(planet.maxElevation)
    ensures planet.maxVelocity == old(planet.maxVelocity)
    ensures SubdividedMesh(planet.vertices, planet.colors, planet.triangles,
                           old(planet.vertices), old(planet.colors), old(planet.triangles), planet.radius, m)
    ensures IsAdjacency(planet.neighbors, old(planet.neighbors), planet.triangles, |planet.vertices|)
    ensures |planet.verticesToPlates| == |planet.vertices| && forall i :: 0 <= i < |planet.vertices| ==> planet.verticesToPlates[i] == 0
    ensures |planet.crustData| == |planet.vertices| && |planet.plates| == |old(planet.plates)|
    ensures forall i :: 0 <= i < |planet.vertices| ==>
      planet.crustData[i] == Some(VertexCrust(planet.vertices[i], noise, OnPlateBoundary(old(planet.plates), planet.triangles, |planet.vertices|, i),
                                              planet.minElevation, planet.maxElevation))
    ensures forall p :: 0 <= p < |planet.plates| ==>
      planet.plates[p] == old(planet.plates[p]).(terranes := planet.plates[p].terranes,
                                                  terraneCentroids := planet.plates[p].terraneCentroids)
    ensures forall p :: 0 <= p < |planet.plates| ==>
      TerranesOf(planet.plates[p].vertices, planet.crustData, planet.neighbors, planet.vertices, planet.radius, m,
                 planet.plates[p].terranes, planet.plates[p].terraneCentroids)
  {
    Subdivide(planet, m);
    RecomputeStructures(planet, noise, m);
  }

  /**
   * The end of amplifyTerrain: the adjacency is rebuilt over the current
   * triangles, then the crust parameters and every plate's terranes.
   */
  method RecomputeStructures(planet: Planet, noise: Noise, m: MathLib)
    modifies planet`neighbors, planet`plates, planet`crustData
    ensures IsAdjacency(planet.neighbors, old(planet.neighbors), planet.triangles, |planet.vertices|)
    ensures |planet.crustData| == |planet.vertices| && |planet.plates| == |old(planet.plates)|
    ensures forall i :: 0 <= i < |planet.vertices| ==>
      planet.crustData[i] == Some(VertexCrust(planet.vertices[i], noise, OnPlateBoundary(old(planet.plates), planet.triangles, |planet.vertices|, i),
                                              planet.minElevation, planet.maxElevation))
    ensures forall p :: 0 <= p < |planet.plates| ==>
      planet.plates[p] == old(planet.plates[p]).(terranes := planet.plates[p].terranes,
                                                  terraneCentroids := planet.plates[p].terraneCentroids)
    ensures forall p :: 0 <= p < |planet.plates| ==>
      TerranesOf(planet.plates[p].vertices, planet.crustData, planet.neighbors, planet.vertices, planet.radius, m,
                 planet.plates[p].terranes, planet.plates[p].terraneCentroids)
  {
    planet.DetectVerticesNeighbors();
    planet.AssignCrustParameters(noise, m);
  }
}
