/**
 * The planet: the sphere mesh, its adjacency, the plates with their ownership
 * array and one crust record per vertex, with the operations of
 * src/planet.cpp and src/mesh.cpp that fill these arrays.
 *
 * The C++ Planet inherits its mesh arrays from Mesh; here both sets of fields
 * live in one class. Noise, acos and the transcendental functions are
 * parameters.
 */
module Planets {
  import opened Options
  import opened Geometry
  import opened Crusts
  import opened Meshes
  import opened Plates
  import opened Adjacency
  import opened Frontiers
  import opened Terranes
  import opened CrustParameters
  import opened PlateGeneration

  class Planet {
    var vertices: seq<Vec3>
    var normals: seq<Vec3>
    var colors: seq<Vec3>
    var triangles: seq<Triangle>
    var triangleNormals: seq<Vec3>
    var isSphere: bool
    var neighbors: seq<seq<nat>>
    var plates: seq<Plate>
    var verticesToPlates: seq<nat>
    var crustData: seq<Option<Crust>>
    var radius: real
    var minElevation: real
    var maxElevation: real
    var maxVelocity: real

    /** A planet of radius r: a 64 x 32 sphere cut into 10 plates. */
    constructor (r: real, minElevation: real, maxElevation: real, maxVelocity: real,
                 noise: Noise, acos: real -> real, m: MathLib)
      ensures radius == r && isSphere
      ensures |vertices| == 33 * 65 && |triangles| == 2 * 32 * 64 && IndexedBy(triangles, |vertices|)
      ensures |plates| == 10 && Partitioned(plates, verticesToPlates, |vertices|)
      ensures IsAdjacency(neighbors, [], triangles, |vertices|)
      ensures this.minElevation == minElevation && this.maxElevation == maxElevation
      ensures this.maxVelocity == maxVelocity
      ensures crustData == []
    {
      radius := r;
      this.minElevation := minElevation;
      this.maxElevation := maxElevation;
      this.maxVelocity := maxVelocity;
      vertices, normals, colors, triangles, triangleNormals := [], [], [], [], [];
      isSphere := false;
      neighbors, plates, verticesToPlates, crustData := [], [], [], [];
      new;
      SetupSphere(r, 64, 32, m);
      GeneratePlates(10, noise, acos, m);
    }

    /**
     * Rebuild the sphere: sectors and stacks are raised to 3 and 2, the four
     * mesh arrays are replaced by the grid, its triangles and their normals.
     */
    method SetupSphere(r: real, sectors: nat, stacks: nat, m: MathLib)
      modifies this
      ensures var (se, st) := SphereResolution(sectors, stacks);
        && |vertices| == |normals| == (st + 1) * (se + 1)
        && |triangles| == 2 * st * se
        && (forall t :: 0 <= t < |triangles| ==> triangles[t] == GridTriangle(se, t))
      ensures IndexedBy(triangles, |vertices|)
      ensures |triangleNormals| == |triangles|
      ensures forall t :: 0 <= t < |triangles| ==> triangleNormals[t] == FaceNormal(vertices, triangles[t], m)
      ensures isSphere
      ensures colors == old(colors) && neighbors == old(neighbors) && plates == old(plates)
      ensures verticesToPlates == old(verticesToPlates) && crustData == old(crustData)
      ensures radius == old(radius) && minElevation == old(minElevation)
      ensures maxElevation == old(maxElevation) && maxVelocity == old(maxVelocity)
    {
      var (se, st) := SphereResolution(sectors, stacks);
      vertices, normals := SphereVertices(r, se, st, m);
      triangles := SphereTriangles(se, st);
      triangleNormals := TriangleNormals(vertices, triangles, m);
      isSphere := true;
    }

    /** One normal per triangle, in triangle order. */
    method ComputeTrianglesNormals(m: MathLib)
      requires IndexedBy(triangles, |vertices|)
      modifies this`triangleNormals
      ensures |triangleNormals| == |triangles|
      ensures forall t :: 0 <= t < |triangles| ==> triangleNormals[t] == FaceNormal(vertices, triangles[t], m)
      ensures Lawful(m) ==> forall t :: 0 <= t < |triangles| ==> triangleNormals[t] == Zero || SqLen(triangleNormals[t]) == 1.0
    {
      triangleNormals := TriangleNormals(vertices, triangles, m);
    }

    /** The adjacency lists are extended by the in-range triangle edges, then sorted and deduplicated. */
    method DetectVerticesNeighbors()
      modifies this`neighbors
      ensures IsAdjacency(neighbors, old(neighbors), triangles, |vertices|)
      ensures ListsBelow(old(neighbors), |vertices|) ==> ListsBelow(neighbors, |vertices|)
    {
      var previous := neighbors;
      neighbors := DetectNeighbors(previous, triangles, |vertices|);
      if ListsBelow(previous, |vertices|) {
        AdjacencyInRange(neighbors, previous, triangles, |vertices|);
      }
    }

    /** Every vertex with a neighbour on another plate becomes a key of its plate's map. */
    method FindFrontierVertices()
      requires FrontierInputs(plates, verticesToPlates, neighbors, |vertices|)
      modifies this`plates
      ensures |plates| == |old(plates)|
      ensures forall p :: 0 <= p < |plates| ==>
        && plates[p].vertices == old(plates[p].vertices)
        && plates[p].rotationAxis == old(plates[p].rotationAxis) && plates[p].velocity == old(plates[p].velocity)
        && plates[p].terranes == old(plates[p].terranes) && plates[p].terraneCentroids == old(plates[p].terraneCentroids)
      ensures forall p, k :: 0 <= p < |plates| ==>
        (k in plates[p].closestFrontier <==>
          k in old(plates[p].closestFrontier) || NewFrontierKey(verticesToPlates, neighbors, |vertices|, p, k))
      ensures forall p, k :: 0 <= p < |plates| && k in plates[p].closestFrontier ==>
        plates[p].closestFrontier[k] ==
          if NewFrontierKey(verticesToPlates, neighbors, |vertices|, p, k) then [] else old(plates[p].closestFrontier[k])
    {
      plates := FindFrontier(plates, verticesToPlates, neighbors, |vertices|);
    }

    /** Each plate with a frontier key has its vertices rebucketed by nearest key. */
    method FillClosestFrontierVertices(m: MathLib)
      requires forall p :: 0 <= p < |plates| ==> PlateIndexed(plates[p], |vertices|)
      modifies this`plates
      ensures |plates| == |old(plates)|
      ensures forall p :: 0 <= p < |plates| ==>
        plates[p] == old(plates[p]).(closestFrontier := Rebucketed(old(plates[p]), vertices, m))
    {
      plates := FillClosestFrontier(plates, vertices, m);
    }

    /**
     * Cut the sphere into plates: nothing happens for 0 plates or an empty
     * mesh; otherwise the count is lowered to the vertex count, distinct seeds
     * are drawn, every vertex joins its perturbed-nearest seed, the adjacency
     * is rebuilt, the frontiers are found and bucketed, and every plate gets a
     * random speed and axis.
     */
    method GeneratePlates(count: nat, noise: Noise, acos: real -> real, m: MathLib)
      requires ListsBelow(neighbors, |vertices|)
      modifies this
      ensures vertices == old(vertices) && normals == old(normals) && colors == old(colors)
      ensures triangles == old(triangles) && triangleNormals == old(triangleNormals) && isSphere == old(isSphere)
      ensures crustData == old(crustData) && radius == old(radius) && minElevation == old(minElevation)
      ensures maxElevation == old(maxElevation) && maxVelocity == old(maxVelocity)
      ensures count == 0 || |vertices| == 0 ==>
        plates == old(plates) && verticesToPlates == old(verticesToPlates) && neighbors == old(neighbors)
      ensures count > 0 && |vertices| > 0 ==>
        && |plates| == ClampedCount(count, |vertices|)
        && Partitioned(plates, verticesToPlates, |vertices|)
        && IsAdjacency(neighbors, old(neighbors), triangles, |vertices|)
        && ListsBelow(neighbors, |vertices|)
      ensures count > 0 && |vertices| > 0 ==>
        forall p :: 0 <= p < |plates| ==>
          && 0.1 <= plates[p].velocity < 0.9
          && plates[p].terranes == [] && plates[p].terraneCentroids == []
          && (Lawful(m) ==> SqLen(plates[p].rotationAxis) == 1.0)
      ensures count > 0 && |vertices| > 0 ==>
        forall p, k :: 0 <= p < |plates| && k in plates[p].closestFrontier ==>
          NewFrontierKey(verticesToPlates, neighbors, |vertices|, p, k)
    {
      if count == 0 || |vertices| == 0 {
        return;
      }
      var vs := vertices;
      var n := |vs|;
      var k := ClampedCount(count, n);
      var seeds := ChooseSeeds(k, n);
      var centroids := seq(k, i requires 0 <= i < k => vs[seeds[i]]);
      var assign := AssignToSeeds(vertices, centroids, noise, acos, m);
      var built := BuildPlates(assign, k);
      plates := built;
      verticesToPlates := assign;
      DetectVerticesNeighbors();
      FrontierReady(built, assign, neighbors, n);
      FindFrontierVertices();
      ghost var found := plates;
      FrontierIndexed(built, found, assign, neighbors, n);
      FillClosestFrontierVertices(m);
      ghost var filled := plates;
      plates := DrawMotions(plates, m);
      forall p, key | 0 <= p < |plates| && key in plates[p].closestFrontier
        ensures NewFrontierKey(verticesToPlates, neighbors, n, p, key)
      {
        assert key in filled[p].closestFrontier;
        assert key in found[p].closestFrontier;
      }
    }

    /**
     * The relative speed of two plates, clamped to the planet's maximum: it
     * lies in [0, max] when the maximum is not negative, is the difference of
     * the speeds unless that exceeds the maximum, and does not depend on the
     * order of the plates.
     */
    function RelativeVelocity(a: Plate, b: Plate): (v: real)
      reads this
      ensures maxVelocity >= 0.0 ==> 0.0 <= v <= maxVelocity
      ensures v <= Abs(a.velocity - b.velocity) && (v == Abs(a.velocity - b.velocity) || v == maxVelocity)
      ensures v == RelativeSpeed(a.velocity, b.velocity, maxVelocity) == RelativeSpeed(b.velocity, a.velocity, maxVelocity)
    {
      RelativeSpeedSymmetric(a.velocity, b.velocity, maxVelocity);
      RelativeSpeed(a.velocity, b.velocity, maxVelocity)
    }

    /**
     * Give every vertex a crust record from the noise, then rebuild the
     * terranes of every plate.
     */
    method AssignCrustParameters(noise: Noise, m: MathLib)
      modifies this`crustData, this`plates
      ensures |crustData| == |vertices|
      ensures forall i :: 0 <= i < |vertices| ==>
        crustData[i] == Some(VertexCrust(vertices[i], noise, OnPlateBoundary(old(plates), triangles, |vertices|, i),
                                         minElevation, maxElevation))
      ensures |plates| == |old(plates)|
      ensures forall p :: 0 <= p < |plates| ==>
        plates[p] == old(plates[p]).(terranes := plates[p].terranes, terraneCentroids := plates[p].terraneCentroids)
      ensures forall p :: 0 <= p < |plates| ==>
        TerranesOf(plates[p].vertices, crustData, neighbors, vertices, radius, m, plates[p].terranes, plates[p].terraneCentroids)
    {
      crustData := AssignCrust(vertices, plates, triangles, noise, minElevation, maxElevation);
      plates := FillAllTerranes(plates, crustData, neighbors, vertices, radius, m);
    }

    /** Rebuild the terranes of every plate. */
    method FillAllTerranesOfPlanet(m: MathLib)
      modifies this`plates
      ensures |plates| == |old(plates)|
      ensures forall p :: 0 <= p < |plates| ==>
        plates[p] == old(plates[p]).(terranes := plates[p].terranes, terraneCentroids := plates[p].terraneCentroids)
      ensures forall p :: 0 <= p < |plates| ==>
        TerranesOf(plates[p].vertices, crustData, neighbors, vertices, radius, m, plates[p].terranes, plates[p].terraneCentroids)
    {
      plates := FillAllTerranes(plates, crustData, neighbors, vertices, radius, m);
    }
  }

  /** Freshly built plates over in-range adjacency meet what frontier detection indexes. */
  lemma FrontierReady(plates: seq<Plate>, owner: seq<nat>, neighbors: seq<seq<nat>>, n: nat)
    requires Partitioned(plates, owner, n) && |neighbors| == n && ListsBelow(neighbors, n)
    ensures FrontierInputs(plates, owner, neighbors, n)
  {
  }

  /** After frontier detection on fresh plates, every plate indexes only the n vertices. */
  lemma FrontierIndexed(built: seq<Plate>, found: seq<Plate>, owner: seq<nat>, neighbors: seq<seq<nat>>, n: nat)
    requires Partitioned(built, owner, n) && FrontierInputs(built, owner, neighbors, n)
    requires forall p :: 0 <= p < |built| ==> built[p].closestFrontier == map[]
    requires |found| == |built|
    requires forall p :: 0 <= p < |found| ==> found[p].vertices == built[p].vertices
    requires forall p, k :: 0 <= p < |found| ==>
      (k in found[p].closestFrontier <==> k in built[p].closestFrontier || NewFrontierKey(owner, neighbors, n, p, k))
    ensures forall p :: 0 <= p < |found| ==> PlateIndexed(found[p], n)
  {
    forall p | 0 <= p < |found|
      ensures PlateIndexed(found[p], n)
    {
      forall i | 0 <= i < |found[p].vertices|
        ensures found[p].vertices[i] < n
      {
        assert built[p].vertices[i] in built[p].vertices;
      }
    }
  }
}
