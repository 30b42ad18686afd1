# Procedural tectonic planets — a verified model of the simulation engine

This project models the simulation engine of a procedural planet generator. A
planet is a triangulated sphere. It carries:

- a vertex array, a triangle list and a symmetric adjacency list;
- one crust record per vertex, oceanic or continental;
- a vertex-to-plate ownership array and a list of plates.

Each plate holds its vertex list, a rotation axis and speed, frontier buckets
(frontier vertex to the plate's vertices nearest to it) and terranes (connected
groups of continental vertices) with their centroids.

The model covers these parts of the engine:

- plate generation, adjacency building, frontier detection and bucketing, and crust assignment (`src/planet.cpp`);
- the UV-sphere mesh (`src/mesh.cpp`);
- terrane extraction (`src/plate.cpp`) and the union-find forest (`src/UnionFind.h`);
- plate motion and phenomenon detection and classification (`src/movement.cpp`);
- the per-event crust rules: subduction, continental collision with terrane migration, rift crust generation, erosion;
- plate rifting (`src/rifting.cpp`);
- the spatial index's search for the nearest pair on different plates (`src/SphericalGrid.h`);
- 1-to-4 terrain amplification (`src/amplification.h`);
- nearest-vertex resampling (`src/reSampling.cpp`);
- the crust and phenomenon records (`src/crust.h`, `src/tectonicPhenomenon.h`).

Values the engine never changes in place become datatypes: crust records,
phenomenon records, plates held by value in the plate vector, and kd-tree
entries. The planet, the union-find forest, the spatial index and the erosion
controller are classes whose methods update their fields in place. Every loop
of the source is a `method` with its invariants. Each method is proved against
a specification function, and the properties the engine relies on are lemmas
about those functions:

- the plates partition the vertices and agree with the ownership array;
- adjacency is symmetric, sorted and duplicate-free;
- terranes are disjoint connected components of a plate's continental vertices;
- terrane and centroid lists stay aligned;
- events change only the vertices they name, within stated bounds.

The model uses reals where the source uses floats. `sqrt`, `sin`, `cos`, `exp`,
`acos` and the coherent noise are parameters of the model (`Geometry.MathLib`,
`CrustParameters.Noise`). Only the laws the proofs need are assumed of them,
as premises: `Geometry.Lawful` (sqrt is a non-negative square root,
sin² + cos² = 1, exp of a non-positive value lies in (0, 1], sqrt 0 = 0, cos 0 = exp 0 = 1)
and `CrustParameters.NoiseBounded` (noise lies in [-1, 1]). Every random draw is a
nondeterministic choice within the range of its distribution, so each property
holds for every outcome of the random number generator.

Module names follow the source files. Each file holds one module, except
`geometry.dfy`, which also holds `Options`.

What the events and passes of the code do, and therefore what the model does:

- Subduction applies no elevation-band damping and does not mark the subducting plate's vertices; it only skips them. The damping bands belong to the collision event.
- The collision event stamps no mountain profile. `smoothMountainProfile` is defined but not called by `triggerEvent`; it is modelled on its own.
- Amplification is a plain 1-to-4 subdivision. Its crust is reset to oceanic, every vertex is given to plate 0, and the crust parameters are then reassigned. No elevation is inherited from the coarse mesh and no noise is layered.
- Resampling copies the crust record of the nearest source vertex. There is no gap detection, no ownership vote and no rift synthesis.
- The oceanic dampening of erosion does not relax toward the floor: as written it lowers every vertex in [min, 0] by 0.05 to 0.1 and pushes the floor below itself. The erosion pass applies it as written; the corrected step is a separate pass (see Findings).
- Swapping the two plates of an interaction leaves its convergence unchanged rather than negating it (`Movement.ConvergenceSwapInvariant`).

## Model

| member | source | states |
|---|---|---|
| Crusts.Crust.Type | src/crust.h:29-36 | the tag is Oceanic exactly for oceanic records and Continental exactly for continental ones |
| Crusts.NewOceanic | src/crust.h:48-50 | an oceanic record holding the four given fields, with the rifting flag clear |
| Crusts.NewContinental | src/crust.h:67-70 | a continental record holding the five given fields |
| Crusts.OrogenyIndex | src/crust.h:11-16 | the enumerators' values lie in 0..3 |
| Crusts.OrogenyFromIndex | src/crust.h:11-16 | the cast from 0..3 yields the enumerator with that value |
| Crusts.OrogenyIndexRoundTrip | src/crust.h:11-16 | casting an enumerator's value back gives the same enumerator |
| Crusts.OrogenyTypeToString | src/crust.h:18-26 | every enumerator has a non-empty name, never the fallback "unknown" |
| Crusts.OrogenyNamesDistinct | src/crust.h:18-26 | two orogeny kinds have the same name exactly when they are the same kind |
| Phenomena.Phenomenon.Type | src/tectonicPhenomenon.h:8-20 | each record kind reports its own tag and no other |
| Meshes.FaceNormalUnit | src/mesh.cpp:88-101 | under lawful maths a face normal is a unit vector, or zero exactly when the face is degenerate |
| Meshes.TriangleNormals | src/mesh.cpp:88-101 | one normal per triangle, in order, each the normalised cross product of the edges from corner 0; unit length, or zero for a degenerate face |
| Meshes.SphereResolution | src/mesh.cpp:3-5 | at least 3 sectors and 2 stacks; a resolution already that large is kept |
| Meshes.SpherePointOnSphere | src/mesh.cpp:14-43 | every grid normal has unit length and equals the grid direction; every position is that direction scaled by the radius |
| Meshes.SphereVertices | src/mesh.cpp:14-43 | (stacks+1)(sectors+1) positions and normals; entry k is the grid point of ring k / (sectors+1) and column k % (sectors+1) |
| Meshes.AppendRing | src/mesh.cpp:21-42 | appending ring i to the rings before it gives (i+1)(sectors+1) entries, entry k still the grid point of ring k / (sectors+1) and column k % (sectors+1) |
| Meshes.GridTriangleInRange | src/mesh.cpp:46-56 | every corner of every grid triangle names a vertex of the grid |
| Meshes.SphereTriangles | src/mesh.cpp:46-56 | two triangles per patch, 2 * stacks * sectors in all, triangle t being the t-th grid triangle; all corners in range |
| Search.FirstMin | src/planet.cpp:207-218 | an index of a smallest value, the first one among equal smallest values; 0 when there are none |
| Search.ArgMin | src/planet.cpp:208-218 | the scan with a running minimum returns the first smallest index |
| Planets.Planet.constructor | src/planet.h:10-13 | a sphere of 33 x 65 vertices and 2 * 32 * 64 triangles cut into 10 plates that partition the vertices, with adjacency rebuilt from the triangles |
| Planets.Planet.SetupSphere | src/mesh.cpp:3-86 | the four mesh arrays become the grid of the raised resolution, its triangles and their face normals; nothing else changes |
| Planets.Planet.ComputeTrianglesNormals | src/mesh.cpp:88-101 | one face normal per triangle, unit or zero |
| Planets.Planet.DetectVerticesNeighbors | src/planet.cpp:19-44 | the lists become the old lists extended by every in-range triangle edge both ways, sorted and without duplicates |
| Planets.Planet.FindFrontierVertices | src/planet.cpp:180-194 | a vertex becomes a key of its plate's frontier map exactly when it has a neighbour on another plate; a new key gets an empty bucket, old keys keep theirs, and the plates' other fields are unchanged |
| Planets.Planet.FillClosestFrontierVertices | src/planet.cpp:196-223 | each plate's frontier map is replaced by the rebucketing of its vertices by nearest key; nothing else changes |
| Planets.Planet.GeneratePlates | src/planet.cpp:46-178 | no change for 0 plates or an empty mesh; otherwise min(count, vertex count) plates that partition the vertices, rebuilt adjacency, frontier keys among the boundary vertices, speeds in [0.1, 0.9) and unit rotation axes |
| Planets.Planet.RelativeVelocity | src/planet.cpp:557-563 | with a non-negative maximum the result lies in [0, max]; it is the absolute difference of the speeds unless that exceeds the maximum, and it is the same with the two plates swapped |
| Planets.Planet.AssignCrustParameters | src/planet.cpp:230-349 | every vertex gets the crust record its noise samples and plate-boundary flag determine, and every plate's terranes are rebuilt from the new crust |
| Planets.Planet.FillAllTerranesOfPlanet | src/planet.cpp:514-518 | every plate's terranes and centroids are rebuilt and satisfy the terrane invariant; nothing else in the plates changes |
| Planets.FrontierReady | src/planet.cpp:161-162 | plates that partition the vertices over in-range adjacency give frontier detection in-range indices |
| Planets.FrontierIndexed | src/planet.cpp:162-163 | after frontier detection on fresh plates, every plate lists and keys only vertices of the mesh |
| Plates.ExactlyOnePlate | src/planet.cpp:153-159 | in a partition a vertex is listed by a plate exactly when the ownership array names that plate |
| Plates.Abs | src/planet.cpp:558 | the absolute value is non-negative and is x or -x |
| Plates.RelativeSpeed | src/planet.cpp:557-563 | at most the maximum and at most the speed difference, equal to one of them, non-negative for a non-negative maximum |
| Plates.RelativeSpeedSymmetric | src/planet.cpp:557-563 | the relative speed does not depend on the order of the plates |
| Adjacency.Insert | src/planet.cpp:41-42 | inserting into a strictly increasing list keeps it strictly increasing and adds exactly the new value |
| Adjacency.SortUnique | src/planet.cpp:40-43 | sort then unique yields a strictly increasing list with the same elements |
| Adjacency.SortedUniqueness | src/planet.cpp:40-43 | a strictly increasing list is determined by its elements, so the deduplicated list is unique |
| Adjacency.AddTriangle | src/planet.cpp:23-36 | a vertex's list gains exactly the other ends of the in-range edges of the triangle that touch it |
| Adjacency.DetectNeighbors | src/planet.cpp:19-44 | the lists have one entry per vertex, each strictly increasing and holding exactly the old entries plus the triangle neighbours |
| Adjacency.LinkedSymmetric | src/planet.cpp:25-36 | every recorded edge is also recorded from its other end, and both ends are in range |
| Adjacency.RecordedBothWays | src/planet.cpp:19-44 | over symmetric old lists, x in the list of v implies v in the list of x |
| Adjacency.AdjacencySymmetric | src/planet.cpp:19-44 | over symmetric old lists the resulting adjacency is symmetric |
| Adjacency.AdjacencyInRange | src/planet.cpp:25-36 | only in-range edges are recorded, so in-range old lists give in-range lists |
| Adjacency.AdjacencyDeterministic | src/planet.cpp:19-44 | the result is determined by the old lists and the triangles |
| Adjacency.AdjacencyIdempotent | src/planet.cpp:19-44 | rebuilding the adjacency from the same triangles changes nothing |
| PlateGeneration.ClampedCount | src/planet.cpp:49 | the plate count is lowered to the vertex count and never raised |
| PlateGeneration.Unchosen | src/planet.cpp:73-76 | while fewer seeds than vertices are chosen, some vertex is still unchosen, so the rejection loop can progress |
| PlateGeneration.ChooseSeeds | src/planet.cpp:70-76 | count distinct seeds, all vertex indices |
| PlateGeneration.SeedDistances | src/planet.cpp:96-111 | one perturbed distance per seed |
| PlateGeneration.AssignToSeeds | src/planet.cpp:90-118 | every vertex is assigned the first seed at the smallest perturbed distance, which is always a valid seed |
| PlateGeneration.BuildPlates | src/planet.cpp:144-159 | count otherwise empty plates whose increasing vertex lists partition the vertices as the assignment says |
| PlateGeneration.AxisIsUnit | src/planet.cpp:170-173 | the axis drawn from z in [-1, 1] and an angle has unit length |
| PlateGeneration.DrawMotions | src/planet.cpp:165-174 | every plate gets a speed in [0.1, 0.9) and a unit rotation axis; its other fields are kept |
| UnionFinds.MaxRank | src/UnionFind.h:15 | an upper bound of every rank |
| UnionFinds.RootOf | src/UnionFind.h:24-29 | the root reached from x is self-parented and no lower in rank than x |
| UnionFinds.CompressKeepsRoots | src/UnionFind.h:25-27 | pointing an element at its root keeps the forest ranked and changes no element's root |
| UnionFinds.LinkMergesRoots | src/UnionFind.h:38-45 | linking one root under another merges exactly their two sets and keeps the forest ranked |
| UnionFinds.Singletons | src/UnionFind.h:18-22 | the initial forest is ranked and every element is its own root |
| UnionFinds.Link | src/UnionFind.h:37-45 | the lower-rank root goes under the other (x's root wins ties and gains one rank); the two sets merge and every other root stays |
| UnionFinds.UnionFind.constructor | src/UnionFind.h:18-22 | n elements, each its own parent with rank 0 |
| UnionFinds.UnionFind.Find | src/UnionFind.h:24-29 | returns the root of x, and path compression changes no element's root or any rank |
| UnionFinds.UnionFind.Unite | src/UnionFind.h:31-46 | afterwards x and y share a root and exactly the two old sets are merged; when they already share a root nothing changes (every root and every rank stays); otherwise the higher-rank root becomes the root, x's root on a tie, and only it may gain one rank, on equal ranks |
| CrustParameters.ClampReal | src/planet.cpp:304 | the clamp is at least the lower bound, at most the upper bound when the bounds are ordered, and the identity inside them |
| CrustParameters.ClampIndex | src/planet.cpp:334 | the index is clamped into 0..3: kept inside, 0 below, 3 above |
| CrustParameters.OrogenyOfSample | src/planet.cpp:332-335 | the four quarters of [-1, 1] give collisional, subduction, rifting and no orogeny in that order; samples below the range give collisional, samples above it none |
| CrustParameters.OceanicElevation | src/planet.cpp:300-304 | the ocean floor is never below the minimum elevation and, when that minimum is at most -500, never above -500 |
| CrustParameters.ContinentalElevation | src/planet.cpp:318-324 | the continent height is never negative and never above a non-negative maximum |
| CrustParameters.FlipIfNegative | src/planet.cpp:337-340 | the fold direction is kept or negated, and the zero vector stays zero |
| CrustParameters.OceanicRecord | src/planet.cpp:297-314 | an oceanic record with zero ridge direction, rifting flag clear, and depth within the oceanic bounds |
| CrustParameters.ContinentalRecord | src/planet.cpp:316-342 | a continental record with zero fold direction and height within the continental bounds |
| CrustParameters.VertexCrust | src/planet.cpp:280-343 | oceanic exactly when the base noise is below 0.05, continental otherwise, with each branch's bounds |
| CrustParameters.CrustRanges | src/planet.cpp:300-330 | with noise in [-1, 1], oceanic thickness lies in [5, 9.5) and age in [0, 200]; continental thickness in [30, 70] and orogeny age in [0, 800] |
| CrustParameters.PlateOf | src/planet.cpp:250-255 | the recorded plate lists the vertex and no later plate does; -1 exactly when no plate lists it |
| CrustParameters.PlateOfPartition | src/planet.cpp:250-255 | on a partition the recorded plate is the owner |
| CrustParameters.PlateOwnership | src/planet.cpp:250-255 | one entry per vertex, each the recorded plate |
| CrustParameters.BoundaryFlag | src/planet.cpp:286-295 | the flag is set exactly when the vertex has a plate and some neighbour has a different recorded plate |
| CrustParameters.BoundaryAgrees | src/planet.cpp:257-295 | the neighbour scan over the locally rebuilt adjacency agrees with the boundary predicate over triangles and plates |
| CrustParameters.AssignCrust | src/planet.cpp:231-344 | one record per vertex, each the record its noise samples and boundary flag determine |
| CrustParameters.AssignedEverywhere | src/planet.cpp:280-344 | every vertex has a record afterwards, continental exactly when its base noise reaches 0.05 |
| CrustParameters.FillAllTerranes | src/planet.cpp:346-348 | every plate keeps its other fields and receives terranes and centroids meeting the terrane invariant |
| Frontiers.HasForeignNeighbor | src/planet.cpp:185-192 | true exactly when some neighbour of the vertex is owned by another plate |
| Frontiers.FindFrontier | src/planet.cpp:180-194 | a vertex becomes a key of its own plate's map, with an empty bucket, exactly when it is on the frontier; no key is removed and nothing else changes |
| Frontiers.KeysBelow | src/planet.cpp:199-202 | the keys below n in increasing order, as the ordered map visits them |
| Frontiers.NearestKey | src/planet.cpp:207-218 | the chosen frontier vertex is one of the keys |
| Frontiers.NearestKeyIsNearest | src/planet.cpp:207-218 | the chosen key is at the least distance from the vertex and every key visited before it is strictly farther |
| Frontiers.Bucket | src/planet.cpp:207-220 | a bucket holds exactly the plate's vertices whose nearest key is its key |
| Frontiers.Buckets | src/planet.cpp:205-221 | the new map has a key for every frontier vertex that wins some vertex, holding exactly the vertices it wins, in list order |
| Frontiers.EachVertexInOneBucket | src/planet.cpp:205-221 | every vertex of the plate lies in exactly one bucket, that of its nearest key |
| Frontiers.FrontierKeys | src/planet.cpp:199-204 | the keys of the map in increasing order; empty exactly when the map is empty |
| Frontiers.Rebucketed | src/planet.cpp:198-222 | a plate without keys keeps its empty map, and the new keys are among the old ones |
| Frontiers.RebucketedPlacesEachVertex | src/planet.cpp:198-222 | on a plate with keys every vertex lands in exactly one bucket, that of its nearest key, the smaller key winning ties |
| Frontiers.BucketsStep | src/planet.cpp:219 | handling one more vertex appends it to its nearest key's bucket and changes nothing else |
| Frontiers.RebucketPlate | src/planet.cpp:198-222 | one plate's frontier map becomes its rebucketed map; its other fields are kept |
| Frontiers.BucketVertices | src/planet.cpp:207-220 | the loop over the plate's vertices builds exactly the bucket map |
| Frontiers.FillClosestFrontier | src/planet.cpp:196-223 | every plate's frontier map is rebucketed and nothing else changes |
| Terranes.ContinentalOf | src/plate.cpp:12-21 | exactly the plate's vertices with a continental record |
| Terranes.ContinentalVertices | src/plate.cpp:14-21 | the loop collects exactly the continental vertices of the plate |
| Terranes.PushNeighbours | src/plate.cpp:50-61 | the unvisited continental neighbours are marked visited and pushed once each; afterwards every continental neighbour is visited |
| Terranes.ExploreStep | src/plate.cpp:42-61 | popping the top vertex into the terrane and pushing its unvisited continental neighbours keeps the walk's invariant, including that the terrane is connected and every pending vertex is next to it; either more vertices become visited or the stack shrinks, so the walk ends |
| Terranes.PopFrontier | src/plate.cpp:42-61 | a pop and its pushes keep reached and pending vertices disjoint, unrepeated and new to the walk, and keep every continental neighbour of a reached vertex visited; if anything is pushed, more vertices are visited |
| Terranes.PopConnected | src/plate.cpp:42-61 | the popped vertex is next to the terrane, so the grown terrane stays connected, and the rest of the stack and the pushed neighbours are next to it |
| Terranes.PathTo | src/plate.cpp:37-62 | in a connected group a walk along the adjacency lists leads from the first vertex to any other without leaving the group |
| Terranes.Explore | src/plate.cpp:37-62 | one walk from the start vertex: it reaches only unvisited continental vertices, each once, starting with the start vertex, each after the first next to one reached before it, and leaves every continental neighbour of a reached vertex visited |
| Terranes.CentroidOnSphere | src/plate.cpp:79-82 | a centroid whose mean is not the origin lies on the sphere of the planet's radius |
| Terranes.ComputeCentroid | src/plate.cpp:67-82 | the centroid is the mean of the existing vertex positions, normalised and scaled to the radius |
| Terranes.PairwiseDisjoint | src/plate.cpp:33-41 | groups each disjoint from the earlier ones share no vertex at all |
| Terranes.LargeMembers | src/plate.cpp:65 | the kept terranes are found groups of at least 20 vertices |
| Terranes.LargeDisjoint | src/plate.cpp:65-86 | dropping the small groups keeps the groups disjoint |
| Terranes.WalkClosed | src/plate.cpp:44-62 | with symmetric adjacency, a walk starting outside the earlier groups reaches a group closed under continental adjacency |
| Terranes.GroupsStep | src/plate.cpp:33-63 | one more walk keeps the invariant of the group loop: the groups cover the visited vertices, are disjoint, unrepeated and connected, and closed with symmetric adjacency |
| Terranes.MeasuredAppend | src/plate.cpp:84-85 | appending a large terrane with its own centroid keeps terranes and centroids aligned |
| Terranes.TerranesFromGroups | src/plate.cpp:33-87 | the finished walks give terranes meeting the terrane invariant, and the groups are pairwise disjoint |
| Terranes.LargeGroupsKept | src/plate.cpp:33-87 | the kept groups lie among the continental vertices, are disjoint, repeat no vertex, are connected and are closed under adjacency |
| Terranes.LargeContinental | src/plate.cpp:65-86 | every vertex of a kept terrane is a continental vertex of the plate |
| Terranes.LargeDistinctClosed | src/plate.cpp:65-86 | the kept terranes repeat no vertex, are connected and, with symmetric adjacency, are closed under continental adjacency |
| Terranes.FillTerranes | src/plate.cpp:9-93 | terranes and centroids in lockstep: the groups found cover the plate's continental vertices, are disjoint and are each connected along the adjacency lists, the terranes are exactly those of at least 20 vertices, each with its centroid |
| Movement.OceanicSamples | src/movement.cpp:108-122 | at most the limit and at most one per listed vertex |
| Movement.SamplesAreAges | src/movement.cpp:110-121 | every sample is the age of an oceanic vertex of the plate |
| Movement.SamplesExist | src/movement.cpp:110-124 | there is a sample exactly when the plate lists an oceanic vertex |
| Movement.AverageBounds | src/movement.cpp:124 | the mean of samples within [lo, hi] is within [lo, hi] |
| Movement.AverageAgeWithin | src/movement.cpp:101-125 | 0 for a plate without oceanic crust; otherwise within any bounds all its oceanic ages respect |
| Movement.SamplesStep | src/movement.cpp:110-121 | the samples of a list are the first vertex's age, when it is oceanic, followed by the samples of the rest |
| Movement.SamplesInvariantStep | src/movement.cpp:110-121 | the loop's account of the samples survives one more vertex |
| Movement.ComputePlateAverageOceanicAge | src/movement.cpp:101-125 | the mean age of the first 50 oceanic vertices in list order; 0 for a plate out of range or without oceanic crust |
| Movement.SumOceanicAges | src/movement.cpp:105-122 | the loop's sum and count are those of the first 50 oceanic samples |
| Movement.InRangeCount | src/movement.cpp:83-88 | the count is the number of list entries that index the vertex array, hence at most the list's length |
| Movement.PlateCentroidOnSphere | src/movement.cpp:90-94 | a plate without in-range vertices has the origin as centroid; otherwise a centroid whose mean is not the origin lies on the sphere |
| Movement.Centroids | src/movement.cpp:77-98 | one centroid per plate |
| Movement.ComputePlateCentroids | src/movement.cpp:77-98 | the loop yields each plate's centroid, in plate order |
| Movement.PlateVelocity | src/movement.cpp:136-141 | the surface velocity is perpendicular to the position |
| Movement.Direction | src/movement.cpp:161-167 | the direction between centroids is a unit vector, or zero when they are within 1e-8 |
| Movement.DirectionIsUnit | src/movement.cpp:162-164 | dividing a vector longer than 1e-8 by its length gives a unit vector |
| Movement.AnalyzeInteraction | src/movement.cpp:144-178 | the record names the two plates, the vertex and its neighbour; crust flags come from the two vertices; ages are 0 on continental sides; the direction is unit or zero |
| Movement.DirectionFlips | src/movement.cpp:161-167 | swapping the two centroids negates the direction |
| Movement.ConvergenceSwapInvariant | src/movement.cpp:161-175 | swapping the plates at one vertex leaves the convergence unchanged |
| Movement.InteractionSwapInvariant | src/movement.cpp:144-178 | the interaction records built with the plates in either order have the same convergence |
| Movement.CreateConvergence | src/movement.cpp:184-234 | a collision exactly when both sides are continental; otherwise a subduction between the two plates, oceanic-oceanic exactly when both are oceanic, the strictly older ocean under (plate B on a tie), the oceanic side under a continent |
| Movement.SubductionPlatesDiffer | src/movement.cpp:199-233 | between different plates the subducting and the overriding plate differ |
| Movement.CreateDivergence | src/movement.cpp:237-258 | a rift at the same plates and vertex whose divergence is the absolute convergence, so non-negative |
| Movement.CreatePhenomenon | src/movement.cpp:262-278 | a convergent phenomenon exactly above the threshold, a rift exactly below minus the threshold, nothing in between; the record keeps the plates and vertex |
| Movement.DetectionSkip | src/movement.cpp:50-57 | a neighbour on the same plate or on a plate already met at this vertex is skipped without breaking the loop invariant |
| Movement.DetectionAdd | src/movement.cpp:55-68 | the first neighbour met on a new plate is classified, its phenomenon kept and its triple cached |
| Movement.AddDistinct | src/movement.cpp:55-68 | a new triple keeps the phenomena at distinct plate pairs and vertices |
| Movement.DetectionNext | src/movement.cpp:46-70 | after the last neighbour of a vertex the loop moves on to the next vertex |
| Movement.DetectAtVertex | src/movement.cpp:49-70 | the neighbour loop of one vertex takes the detection loop's invariant from the start of that vertex to the start of the next |
| Movement.DetectPhenomena | src/movement.cpp:34-73 | nothing without plates or vertices; every phenomenon classifies a neighbour pair on different plates; no two share plates and vertex; every classified pair first met for its plate at that vertex is reported |
| Movement.RotateUnlisted | src/movement.cpp:285-300 | vertices not listed by the plate keep their position |
| Movement.RotateKeepsLength | src/movement.cpp:295-297 | a rotation about a unit axis with sin^2 + cos^2 = 1 keeps every vertex's distance to the centre |
| Movement.MovedVerticesProperties | src/movement.cpp:281-301 | only the plate's vertices move, and with a non-zero axis every vertex keeps its distance to the centre |
| Movement.MovePlate | src/movement.cpp:281-301 | the vertex array becomes the plate's vertices rotated about the normalised axis by speed x dt x 0.0001, unchanged at speed 0 |
| Geometry.RodriguesPreservesLength | src/movement.cpp:295-297 | Rodrigues' formula about a unit axis preserves length |
| Rifting.TooClose | src/rifting.cpp:70-78 | the candidate is rejected exactly when some seed already taken lies closer than 0.3 |
| Rifting.GenerateCentroids | src/rifting.cpp:46-88 | at most n seeds, none for an empty plate or n = 0 and at least one otherwise, each at a distinct vertex of the plate, every two at least 0.3 apart; when fewer than n come back, every plate vertex is a seed or lies closer than 0.3 to one |
| Rifting.VoronoiNearest | src/rifting.cpp:90-116 | a listed vertex gets the seed nearest to it (the first on ties), an unlisted one gets 0, and every cell names an existing seed |
| Rifting.AssignToVoronoiCells | src/rifting.cpp:95-115 | the loop yields the nearest-seed assignment of every vertex |
| Rifting.HasOtherCell | src/rifting.cpp:133-138 | true exactly when an existing neighbour lies in another cell |
| Rifting.BoundaryFlags | src/rifting.cpp:126-139 | a vertex is flagged exactly when it has adjacency and a neighbour in another cell |
| Rifting.NeighbourCells | src/rifting.cpp:147-153 | a cell is collected exactly when some existing neighbour holds it |
| Rifting.CollectNeighbourCells | src/rifting.cpp:147-153 | the loop collects the cells of the existing neighbours in neighbour order |
| Rifting.WarpStep | src/rifting.cpp:142-160 | writing one vertex keeps what every earlier vertex saw at its neighbours |
| Rifting.WarpBoundaries | src/rifting.cpp:118-161 | only seam vertices change, each to a cell one of its neighbours held when it was visited, no new cell appears, and a strength of -1 or less changes nothing |
| Rifting.Fragment | src/rifting.cpp:208-217 | a vertex is in fragment f exactly when it is listed, on the assignment array and in cell f |
| Rifting.SplitVertices | src/rifting.cpp:208-217 | the loop builds k fragments, fragment f holding the listed vertices of cell f |
| Rifting.FragmentsPartition | src/rifting.cpp:208-217 | when every cell is below k, each listed vertex is in exactly one fragment, the one of its cell |
| Rifting.SphericalAxisIsUnit | src/rifting.cpp:238-245 | the axis built from two angles is already a unit vector |
| Rifting.DrawPlateMotion | src/rifting.cpp:230-246 | every fragment gets a unit rotation axis and a speed in [0.1, 0.9) |
| Rifting.FragmentPlate | src/rifting.cpp:276-277 | fragment 0 keeps the plate's index; fragment f > 0 lands at index n + f - 1 after the n existing plates |
| Rifting.RiftOwners | src/rifting.cpp:249-284 | the ownership array keeps its length as fragments are given to their plates |
| Rifting.GiveVertices | src/rifting.cpp:249-253 | exactly the listed vertices are given to plate p; every other owner is kept |
| Rifting.AppendedStep | src/rifting.cpp:261-288 | appending the plate of fragment f extends the run of appended fragment plates by one |
| Rifting.VoronoiBelow | src/rifting.cpp:102-112 | every vertex's cell names an existing seed |
| Rifting.FragmentDistinct | src/rifting.cpp:208-217 | a fragment of a distinct vertex list is itself distinct |
| Rifting.PlaceSeeds | src/rifting.cpp:191-196 | on success, exactly count seeds at least 0.3 apart, each at a vertex of the plate |
| Rifting.WarpedCells | src/rifting.cpp:198-205 | the cells are the nearest-seed cells with the seam warped, and every plate vertex names a seed |
| Rifting.CheckedFragments | src/rifting.cpp:208-227 | on success, count fragments, none empty, each the plate's vertices in one cell |
| Rifting.SplitPlate | src/rifting.cpp:191-227 | on success, the seeds, the warped cells and the non-empty fragments that they determine |
| Rifting.RiftOwnersStep | src/rifting.cpp:280-284 | giving fragment f to its plate takes the ownership array one fragment further |
| Rifting.ReplaceWithFragment | src/rifting.cpp:235-258 | fragment 0 replaces the plate's vertices, motion and terranes, keeps its frontier cache, and its vertices are given to the plate; the other plates are untouched |
| Rifting.AppendFragment | src/rifting.cpp:262-286 | a further fragment becomes a new last plate with a fresh motion and terranes, and its vertices are given to it |
| Rifting.PlaceFragments | src/rifting.cpp:235-288 | the plates and the ownership array become the rifted ones: fragment 0 in place, the others appended, each fragment vertex owned by its fragment's plate |
| Rifting.RiftPlate | src/rifting.cpp:163-294 | nothing changes on a bad index, a plate under 5000 vertices, too few seeds or an empty fragment; otherwise the plate is split into numFragments (two or three when 0) fragments along the warped Voronoi cells |
| Rifting.RiftKeepsPartition | src/rifting.cpp:235-288 | a successful rift keeps the plates a partition of the mesh's vertices agreeing with the ownership array |
| Rifting.RiftedVertexOwner | src/rifting.cpp:249-284 | after a rift every vertex of a plate is owned by that plate |
| Rifting.RiftKeepsPlatesIndexed | src/rifting.cpp:235-288 | a successful rift keeps every plate's list distinct and on the mesh, so a further rift can run |
| Rifting.RiftableIndices | src/rifting.cpp:15-20 | an index is collected exactly when its plate has at least 5000 vertices |
| Rifting.CollectRiftable | src/rifting.cpp:15-20 | the loop collects the riftable indices in order |
| Rifting.TriggerRifting | src/rifting.cpp:9-40 | with no plate of at least 5000 vertices nothing happens; otherwise a riftable plate is split into two or three fragments or left as it is |
| CollisionEvent.MountainProfile | src/continentalCollision.cpp:20-27 | nothing from the width on |
| CollisionEvent.MountainProfileAtCentre | src/continentalCollision.cpp:20-27 | at distance 0 the profile is at its peak, 1 |
| CollisionEvent.MountainProfileBounds | src/continentalCollision.cpp:20-27 | inside the width, with a non-negative smoothness, the profile lies in (0, 1] |
| CollisionEvent.Damping | src/continentalCollision.cpp:63-68 | the damping factor lies in (0, 1] and is 1 exactly below 2000 |
| CollisionEvent.DampingSides | src/continentalCollision.cpp:63-68 | side B is damped at least as much as side A, and differently exactly in [4000, 6000) |
| CollisionEvent.RaiseBounds | src/continentalCollision.cpp:53-70 | at a non-negative speed a vertex never sinks, and at most max_velocity it rises by at most continentalCollisionUplift |
| CollisionEvent.Raised | src/continentalCollision.cpp:51-71 | one side's loop keeps every record's presence and kind |
| CollisionEvent.RaisedBounds | src/continentalCollision.cpp:51-71 | one side's loop leaves unlisted vertices alone, never lowers a vertex, and raises it by at most continentalCollisionUplift per listing |
| CollisionEvent.BucketAt | src/continentalCollision.cpp:40-44 | an absent key reads as an empty bucket |
| CollisionEvent.WithBucket | src/continentalCollision.cpp:40-44 | operator[] adds the key with an empty bucket where it was absent and changes nothing else |
| CollisionEvent.LookedUpAddsOnlyKeys | src/continentalCollision.cpp:40-44 | both lookups change no plate except by adding the collision vertex's key to plates A and B |
| CollisionEvent.Collided | src/continentalCollision.cpp:51-97 | both loops keep every record's presence and kind |
| CollisionEvent.CollisionOnlyRaisesBuckets | src/continentalCollision.cpp:51-97 | only vertices of the two buckets change, and at a non-negative speed none of them sinks |
| CollisionEvent.RaiseSide | src/continentalCollision.cpp:51-71 | the loop's crust is the crust raised along the bucket in order |
| CollisionEvent.TriggerCollision | src/continentalCollision.cpp:30-98 | the plates only gain the looked-up keys, and the crust is raised along A's bucket and then B's at the plates' relative speed |
| TerraneMigration.NearestTerrane | src/continentalCollision.cpp:125-134 | a terrane found exists and is non-empty |
| TerraneMigration.NearestTerraneIsNearest | src/continentalCollision.cpp:125-145 | a terrane is found iff one is non-empty; it is no farther than any non-empty terrane and strictly nearer than every earlier one |
| TerraneMigration.ClosestTerrane | src/continentalCollision.cpp:125-134 | the search loop finds the nearest non-empty terrane |
| TerraneMigration.Contested | src/continentalCollision.cpp:147-168 | the winning and losing plates and terranes exist |
| TerraneMigration.ContestRule | src/continentalCollision.cpp:147-168 | there is a contest iff both plates have a non-empty terrane; A wins iff its nearest terrane is at least as large as B's |
| TerraneMigration.WithinRadius | src/continentalCollision.cpp:178-187 | a vertex is selected exactly when it is in the losing terrane, exists, and lies within 0.2 of the collision point |
| TerraneMigration.SelectTransfer | src/continentalCollision.cpp:175-187 | the loop selects the losing terrane's vertices within the radius, in order |
| TerraneMigration.Without | src/continentalCollision.cpp:204-211 | remove_if keeps exactly the elements outside the transferred set |
| TerraneMigration.WithoutDistinct | src/continentalCollision.cpp:204-211 | removing elements keeps a list free of duplicates |
| TerraneMigration.AppendMissing | src/continentalCollision.cpp:214-221 | the list keeps its prefix and holds exactly its old elements and the moved ones |
| TerraneMigration.AppendMissingDistinct | src/continentalCollision.cpp:214-221 | appending only missing vertices adds no duplicate |
| TerraneMigration.AppendEach | src/continentalCollision.cpp:214-221 | the loop appends each moved vertex not yet listed |
| TerraneMigration.SetOwners | src/continentalCollision.cpp:200-201 | exactly the moved vertices are owned by the winning plate; every other owner is kept |
| TerraneMigration.RemoveAt | src/continentalCollision.cpp:258-260 | erasing one element shortens the list by one |
| TerraneMigration.TransferPlates | src/continentalCollision.cpp:196-275 | the transfer keeps the number of plates |
| TerraneMigration.Migration | src/continentalCollision.cpp:101-276 | the migration keeps the number of plates and the length of the ownership array |
| TerraneMigration.MigrationNoOp | src/continentalCollision.cpp:106-189 | nothing changes on an out-of-range vertex or plate, a plate without a non-empty terrane, or no losing vertex within the radius |
| TerraneMigration.MigrationOwnership | src/continentalCollision.cpp:175-201 | on a transfer exactly the losing terrane's vertices within the radius change owner, to the winning plate, and no plate but the two is touched |
| TerraneMigration.TransferPlatesFrame | src/continentalCollision.cpp:196-275 | the transfer touches only the two plates of the contest |
| TerraneMigration.TransferEffects | src/continentalCollision.cpp:204-275 | the winner gains the moved vertices at most once each, the loser loses exactly them, the winning terrane has them appended, the losing terrane loses them and is erased with its centroid when left empty |
| TerraneMigration.MigrationKeepsTerranesAligned | src/continentalCollision.cpp:224-275 | every plate keeps one centroid per terrane |
| TerraneMigration.TransferKeepsAligned | src/continentalCollision.cpp:224-275 | the transfer keeps one centroid per terrane on every plate |
| TerraneMigration.Transfer | src/continentalCollision.cpp:196-275 | the loops compute the step-by-step transfer of lists, terranes and centroids |
| TerraneMigration.GiveVertices | src/continentalCollision.cpp:200-201 | the loop gives exactly the moved vertices to the winning plate |
| TerraneMigration.TriggerTerranesMigration | src/continentalCollision.cpp:101-276 | the plates and the ownership array become the migration's, a no-op or a transfer as the lemmas describe |
| SubductionEvent.SmoothstepBounds | src/subduction.cpp:17-19 | the cubic fall-off stays within [0, 1] strictly inside the influence radius |
| SubductionEvent.Falloff | src/subduction.cpp:13-20 | f lies in [0, 1], is 1 at or before the front and 0 from r_s = 10 on |
| SubductionEvent.SpeedFactor | src/subduction.cpp:22-24 | g is the speed as a fraction of max_velocity = 5, in [0, 1] for speeds in [0, 5] |
| SubductionEvent.ElevationFactor | src/subduction.cpp:26-28 | h is non-negative, at most 1 on [0, 1], and 0 exactly at 0 |
| SubductionEvent.ElevationImpact | src/subduction.cpp:43-49 | the impact lies in [0, 1]; it is 0 for an empty range and at or below minZ, and 1 at or above maxZ |
| SubductionEvent.ElevationImpactLinear | src/subduction.cpp:45 | between minZ and maxZ the impact is the elevation mapped linearly onto [0, 1] |
| SubductionEvent.SubductionSpeed | src/subduction.cpp:35-41 | the speed difference's absolute value, clamped to [0, max_velocity] |
| SubductionEvent.SubductionSpeedSymmetric | src/subduction.cpp:35-41 | swapping the subducting and overriding plates leaves the speed unchanged |
| SubductionEvent.UpliftBounds | src/subduction.cpp:69 | each uplift lies in [0, subductionUplift] |
| SubductionEvent.Subducted | src/subduction.cpp:57-71 | the loop keeps every record's presence and kind |
| SubductionEvent.RiseStep | src/subduction.cpp:57-71 | one more listed vertex keeps the rise bounded: a vertex of the subducting plate is skipped, any other vertex rises by between 0 and subductionUplift, and no other record changes |
| SubductionEvent.RaiseListed | src/subduction.cpp:57-71 | the loop over the listed vertices yields the records Subducted describes; at a speed within [0, max_velocity], unlisted vertices and those of the subducting plate keep their record, and every other vertex never sinks and rises by at most subductionUplift per listing |
| SubductionEvent.TriggerSubduction | src/subduction.cpp:51-73 | the crust becomes the listed vertices raised in order at the plates' clamped relative speed, so no vertex sinks, each listed vertex off the subducting plate rises by at most subductionUplift per listing, and every other record is unchanged |
| CrustGeneration.Alpha | src/crustGeneration.cpp:29-30 | alpha lies in [0, 1) for non-negative distances |
| CrustGeneration.RidgeTemplate | src/crustGeneration.cpp:33-35 | the ridge template of height 0 is 0 everywhere |
| CrustGeneration.BlendFactor | src/crustGeneration.cpp:52-53 | the blend factor lies in [0, 1] and is 1 exactly from half the influence radius on |
| CrustGeneration.NewElevation | src/crustGeneration.cpp:49-56 | new oceanic crust is at least 10 below sea level |
| CrustGeneration.FarFromRidge | src/crustGeneration.cpp:49-56 | from half the influence radius on, the new elevation is the abyssal depth, whatever the old elevation |
| CrustGeneration.NewThickness | src/crustGeneration.cpp:77 | replacing crust is at least 1000 thick, exactly 1000 at or below sea level |
| CrustGeneration.GeneratedEffects | src/crustGeneration.cpp:8-90 | only the rift vertex changes, and only when q is non-zero and the index exists; it becomes oceanic at most 10 below sea level, an oceanic record keeps thickness and flag and never ages, any other becomes rifting crust 1000 thick |
| CrustGeneration.TriggerCrustGeneration | src/crustGeneration.cpp:8-90 | the crust becomes the generated records at the rift vertex |
| Erosion.ContinentalErosionBounds | src/erosion.h:33-35 | on [0, max] with max at least 30, continental erosion never raises relief nor takes it below sea level |
| Erosion.DampeningAsWrittenBreaksFloor | src/erosion.h:37-39 | as written, a vertex at a negative floor ends 0.1 below it (-8000 becomes -8000.1) |
| Erosion.OceanicDampeningAsWrittenBounds | src/erosion.h:37-39 | for a negative floor, the step as written lowers every vertex in [min, 0] by at least 0.05 and at most 0.1 |
| Erosion.OceanicDampeningBounds | src/erosion.h:37-39 | the corrected step maps [min, 0] into itself, never raises a vertex, and fixes the floor |
| Erosion.Eroded | src/erosion.h:23-28 | a record keeps its tag and every field but the elevation |
| Erosion.ErodedAll | src/erosion.h:21-30 | a pass keeps the number of records |
| Erosion.ErosionKeepsBands | src/erosion.h:21-30 | a pass keeps tags and every field but elevation, leaves records past the vertex count alone and keeps continental relief in [0, max]; oceanic floor in [min, 0] is lowered by 0.05 to 0.1 by the step as written, and stays in [min, 0] under the corrected step |
| Erosion.Eroder.constructor | src/erosion.h:16-19 | the controller holds the planet and the elevation bounds read from it |
| Erosion.Eroder.Erode | src/erosion.h:21-30 | the crust becomes the pass over every vertex, with the oceanic step as written |
| SphericalGrid.UnitIsUnit | src/SphericalGrid.h:23-24 | a point longer than 1e-12 is stored on the unit sphere |
| SphericalGrid.AnnotatedOf | src/SphericalGrid.h:81-87 | a candidate is kept exactly when it has an owner that is an existing plate |
| SphericalGrid.AnnotatedOfSorted | src/SphericalGrid.h:78-87 | filtering the tree's answer keeps its ascending distance order |
| SphericalGrid.CollectCandidates | src/SphericalGrid.h:79-87 | the loop collects the annotated candidates in order |
| SphericalGrid.FirstPair | src/SphericalGrid.h:88-97 | a pair is found iff some candidate's plate differs from the first's, and it is the first candidate with the first candidate of another plate |
| SphericalGrid.ScanClosest | src/SphericalGrid.h:88-97 | over sorted candidates with nothing nearer left out, the scan pairs the nearest annotated vertex with the nearest one on another plate |
| SphericalGrid.KnnPairClosest | src/SphericalGrid.h:75-97 | with a correct tree, the pair found in one answer is the closest pair on different plates |
| SphericalGrid.Insert | src/SphericalGrid.h:114 | insertion keeps the entries as a multiset plus the new one |
| SphericalGrid.InsertSorted | src/SphericalGrid.h:114 | inserting into a sorted list keeps it sorted by (distance, index) |
| SphericalGrid.Sort | src/SphericalGrid.h:114 | the fallback list is sorted by (distance, index) and a permutation of its entries |
| SphericalGrid.SortedCandidates | src/SphericalGrid.h:103-121 | the sorted entries are in ascending distance, all annotated, and list every annotated vertex |
| SphericalGrid.SphericalKDTree.constructor | src/SphericalGrid.h:17-33 | point i is stored projected onto the unit sphere under index i |
| SphericalGrid.SphericalKDTree.NearestIsClosest | src/SphericalGrid.h:39-49 | with a correct tree, nearest returns a stored point nearest to the projected query, or 0 on an empty tree |
| SphericalGrid.SphericalKDTree.KNearestAreNearest | src/SphericalGrid.h:51-63 | with a correct tree, kNearest returns min(k, n) distinct points, nearest first, none farther than a point left out |
| SphericalGrid.SphericalKDTree.CollectEntries | src/SphericalGrid.h:103-112 | one measured entry per annotated point, and every annotated point listed |
| SphericalGrid.SphericalKDTree.FallbackPair | src/SphericalGrid.h:102-122 | a pair is found iff two annotated points lie on different plates, and then it is the closest such pair |
| SphericalGrid.SphericalKDTree.DoublingSearch | src/SphericalGrid.h:73-100 | a pair found lies on different plates and, with a correct tree, is the closest pair |
| SphericalGrid.SphericalKDTree.NearestFromDifferentPlates | src/SphericalGrid.h:66-124 | the result is two annotated vertices on different plates, the closest pair with a correct tree, whenever such a pair exists; otherwise (0, 1) |
| SphericalGrid.ClosestIsPair | src/SphericalGrid.h:66-124 | a closest pair is a pair of annotated points on different plates |
| SphericalGrid.PairAmongEntries | src/SphericalGrid.h:113-121 | when two annotated points lie on different plates, the sorted list has a candidate off the first one's plate |
| Resampling.DistancesTo | src/reSampling.cpp:9-10 | the squared distance from each source point to the query, in order |
| Resampling.Closest | src/reSampling.cpp:5-18 | the first point nearest to the query, 0 when there are none |
| Resampling.FindClosestVertex | src/reSampling.cpp:5-18 | the scan returns the first nearest among the first as many source points as the planet has vertices |
| Resampling.Resampled | src/reSampling.cpp:21-35 | resampling keeps the crust array's length |
| Resampling.ResampledRecords | src/reSampling.cpp:21-35 | each receiving vertex takes the record of the first nearest source vertex when it exists; every other entry is kept |
| Resampling.EmptySourceCopiesFirst | src/reSampling.cpp:5-28 | a source without vertices yields index 0, so each receiving vertex copies source record 0 |
| Resampling.Resample | src/reSampling.cpp:21-35 | the crust becomes the resampled array and the vertex positions are untouched |
| Amplification.FlattenLength | src/amplification.h:47-114 | blocks of w entries laid end to end give w entries per old triangle |
| Amplification.FlattenAt | src/amplification.h:81-113 | entry k of the block of triangle t sits at baseIdx + k, with baseIdx = w x t |
| Amplification.PositionBlock | src/amplification.h:48-89 | each old triangle contributes six positions |
| Amplification.NormalBlock | src/amplification.h:52-96 | each old triangle contributes six normals |
| Amplification.ColorBlock | src/amplification.h:56-103 | each old triangle contributes six colours |
| Amplification.TriangleBlock | src/amplification.h:105-113 | each old triangle contributes four triangles |
| Amplification.ResetCrust | src/amplification.h:124-132 | the new record is oceanic, 7 thick, at its height above the radius, of age 0, with a zero ridge direction and no rifting flag |
| Amplification.SubdivisionSizes | src/amplification.h:47-120 | six vertices, normals and colours and four triangles per old triangle, the triangles indexing the new vertices |
| Amplification.SubdividedTrianglesIndexed | src/amplification.h:105-113 | every new triangle indexes an existing new vertex |
| Amplification.TriangleInBlock | src/amplification.h:105-113 | each of the four triangles of old triangle t uses only its six vertices |
| Amplification.CornersKept | src/amplification.h:84-86 | the first three vertices of each block are the old triangle's corners |
| Amplification.MidpointColorsAveraged | src/amplification.h:76-78 | each midpoint colour is the average of the colours at its edge's ends |
| Amplification.MidpointIsUnit | src/amplification.h:61-66 | a midpoint of ends that do not cancel lies on the unit sphere for any non-zero radius |
| Amplification.MidpointsOnUnitSphere | src/amplification.h:61-66 | each new midpoint vertex whose edge ends do not cancel lies on the unit sphere, whatever the corners' radius |
| Amplification.Subdivide | src/amplification.h:41-137 | the mesh arrays become the subdivision of the old ones and the crust and ownership are reset |
| Amplification.SubdivideArrays | src/amplification.h:41-114 | the loop builds the blocks of every old triangle, in order |
| Amplification.PositionStep | src/amplification.h:84-89 | pushing triangle t's six positions extends the vertices of the first t triangles |
| Amplification.NormalStep | src/amplification.h:91-96 | pushing triangle t's six normals extends the normals of the first t triangles |
| Amplification.ColorStep | src/amplification.h:98-103 | pushing triangle t's six colours extends the colours of the first t triangles |
| Amplification.TriangleStep | src/amplification.h:105-113 | pushing triangle t's four triangles from 6t extends the triangles of the first t |
| Amplification.ResetArrays | src/amplification.h:122-137 | one reset oceanic record per vertex, and every vertex on plate 0 |
| Amplification.AmplifyTerrain | src/amplification.h:36-148 | the vertices, colours and triangles are subdivided, every vertex is on plate 0, adjacency is rebuilt over the new triangles on top of the old lists, and every vertex gets the crust assignCrustParameters gives it; each plate keeps its record except for its terranes, which are rebuilt over the new crust; the radius, the elevation bounds, the velocity cap and the sphere flag are unchanged |
| Amplification.RecomputeStructures | src/amplification.h:142-145 | the adjacency is rebuilt over the current triangles on top of the old lists, every vertex gets the crust assignCrustParameters gives it, and each plate keeps its record except for its terranes, which are rebuilt over the new crust |

## Left out

- Floating point: the model computes over reals. Rounding, overflow to infinity, NaN, and IEEE division by zero are not modelled. Where the source divides by a value that may be zero, the model either excludes the case by a `requires` (a zero width in `smoothMountainProfile`, zero elevation bounds in erosion) or, for `Vec3::normalize`, takes a convention stated on the next line.
- `Vec3::normalize` of a zero vector: Vec3.h is not part of this model, and `Geometry.Normalize` takes a vector of length zero to stay zero. Only `setupSphere` guards the zero length itself (src/mesh.cpp:79). The other calls normalize without a guard: src/mesh.cpp:95, src/amplification.h:64-73, src/util.h:71, src/plate.cpp:81, src/movement.cpp:92, 138 and 291, src/planet.cpp:94-98 and 134, src/rifting.cpp:245 and 273, src/crustGeneration.cpp:59-61 and src/continentalCollision.cpp:239 and 268. What the model states about a zero input rests on this convention. In particular, the "zero exactly when the face is degenerate" of `Meshes.FaceNormalUnit`, `Meshes.TriangleNormals` and `Planets.Planet.ComputeTrianglesNormals` does, as does the zero result for a cancelling mean or axis in the centroid, midpoint and motion members.
- Unowned vertices: the ownership array holds natural numbers, so a vertex owned by no plate (an owner of -1) is not modelled. The skips for a negative `plateA` or `plateB` in `Movement::detectPhenomena` (src/movement.cpp:48, 52) therefore never apply in `Movement.DetectAtVertex` and `Movement.DetectPhenomena`.
- `FLT_MAX` and infinity as initial minima: the argmin loops start from the first candidate instead. This is the same result for every finite distance.
- Random draws and noise: `std::random_device`, `mt19937`, `FastNoiseLite` and `rand` are nondeterministic choices or function parameters. The distribution of the draws is not modelled.
- `Mesh::addNoise` and `Amplification::addNoise`: random or noise displacement of positions. `amplifyTerrain` does not call them.
- The kd-tree of `src/SphericalGrid.h` (kdtree.h) is not part of this model. It is an oracle, and the nearest-point results assume its answers are correct (`SphericalGrid.KnnLaw`).
- `Planet::recomputeNormals`, `cleanPlatesFast`, `findSurroundingMajorityPlate`, `smoothColors`, the phenomena detection cache type and the spatial-index `Planet::resample` are not part of this model. The cache is a set of (plate A, plate B, vertex) triples. Its `alreadyProcessed` query is taken to record the triple the first time it is asked and to answer true for it from then on; that is an assumption about a type whose definition is not available, and the detection loop's guarantee of one phenomenon per triple rests on it.
- The three-argument `elevationImpact` and `distanceToInteractionFront` used by the collision event are not part of this model. They are taken to be the clamped linear map and the Euclidean distance of `src/subduction.cpp`.
- `Movement::movePlates`, `Movement::triggerEvents` and `Movement::triggerTerranesMigration` (src/movement.cpp:15-31, 303-307) are not modelled. They only dispatch over the detected records to the per-event operations, which are modelled. A subduction record's list of vertices closest to the phenomenon is not part of the shown record, so it is a parameter of `SubductionEvent.TriggerSubduction`.
- Colouring: the plate colours of `generatePlates`, the `colors` writes, the `vertexColorsFor*` functions and the palette.
- The centroid update of `generatePlates` (src/planet.cpp:120-141) is not modelled, because its results are never read afterwards. The fallback to plate 0 for an unassigned vertex (src/planet.cpp:155) cannot fire over reals, since every vertex has a nearest seed.
- The water-level functions, `printCrustAt`, the radius statistics and all console output, including the printing in `fillTerranes`.
- Smoothing (`src/smooth.cpp`), rendering, shaders, the skybox and the event loop.
- The constants `MOUNTAIN_HEIGHT`, `MOUNTAIN_WIDTH` and `SMOOTHNESS` of src/continentalCollision.cpp are declared but never read, so the model omits them. Erosion's `sediment_coefficient` is kept only as a constant.
- `std::sort` is modelled by insertion sort. Only its result matters: sorted, and a permutation.
- Rifting.GenerateCentroids: requires the plate's vertex list to be free of duplicates. With a duplicate, the source's loop can run forever, because the set of tried vertices never reaches the list's length. The model draws only untried vertices; a draw that hits a tried vertex changes nothing in the source.
- Resampling.FindClosestVertex: requires the receiver to have no more vertices than the source. The source reads the source's vertices up to the receiver's count, which is in bounds only because `resample` calls it on the source itself.
- Resampling.Resample: requires the receiving and source planets to be different objects. Resampling a planet onto itself is not modelled.
- Amplification.AmplifyTerrain: adjacency is stated over the coarse mesh's lists extended by the new triangles, because `detectVerticesNeighbors` resizes but does not clear them. The stale coarse entries are kept, not dropped. The vertex and triangle normals it leaves are not stated, because it ends by calling `Planet::recomputeNormals`, which is not part of this model; `Amplification.Subdivide` states the interpolated normals of the subdivision step.
- SubductionEvent.TriggerSubduction: requires more than the source uses. It asks for the front's crust record even for an empty list, and for the record of every listed vertex, including the vertices on the subducting plate. The source skips those vertices before it dereferences anything (src/subduction.cpp:59-61).
- CollisionEvent.TriggerCollision, SubductionEvent.TriggerSubduction, Erosion.Eroder.Erode: require the indices and crust records they use to exist. The source indexes and dereferences them unchecked, which is undefined behaviour otherwise.

## Findings

| source | as written | input that shows it | evidently intended | confidence | as-written member | corrected member |
|---|---|---|---|---|---|---|
| src/erosion.h:37-39 | `e - (1 - e / -min) * 0.05`: dividing by minus the floor sends a vertex at a negative floor 0.1 below it | min_elevation = -8000, elevation = -8000 gives -8000.1 | `e - (1 - e / min) * 0.05`: the floor is a fixed point and [min, 0] maps into itself | not executed | Erosion.DampeningAsWrittenBreaksFloor | Erosion.OceanicDampeningBounds |
