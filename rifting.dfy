/**
 * Plate rifting (src/rifting.cpp): a large plate is split into two or three
 * fragments. Seeds are drawn from the plate's own vertices, at least 0.3 apart;
 * the plate's vertices go to their nearest seed; the seam is roughened by moving
 * some boundary vertices to a neighbour's cell; the split is refused if a
 * fragment is empty. Fragment 0 stays at the plate's index, the others are
 * appended as new plates, and every fragment gets a fresh motion and terranes.
 *
 * The random draws are nondeterministic choices over the ranges the
 * distributions can produce.
 */
module Rifting {
  import opened Options
  import opened Geometry
  import opened Crusts
  import opened Search
  import opened Plates
  import opened Terranes
  import opened PlateGeneration
  import opened Planets

  /** The default minVertices of isPlateRiftable. */
  const MinRiftVertices: nat := 5000
  /** The smallest distance between two seeds. */
  const MinSeedSpacing: real := 0.3
  /** The default warpStrength. */
  const WarpStrength: real := 0.3

  /** isPlateRiftable: the plate has at least minVertices vertices. */
  predicate IsPlateRiftable(p: Plate, minVertices: nat)
  {
    |p.vertices| >= minVertices
  }

  // ---------------------------------------------------------------------------
  // Seeds

  /** Every two seeds, the later one taken against the earlier, are at least MinSeedSpacing apart. */
  predicate Spread(cs: seq<Vec3>, m: MathLib)
  {
    forall i, j :: 0 <= i < j < |cs| ==> Length(Sub(cs[j], cs[i]), m) >= MinSeedSpacing
  }

  /** The candidate is closer than MinSeedSpacing to some seed already taken. */
  predicate CloseToAny(candidate: Vec3, cs: seq<Vec3>, m: MathLib)
  {
    exists i :: 0 <= i < |cs| && Length(Sub(candidate, cs[i]), m) < MinSeedSpacing
  }

  /** The loop over the seeds taken so far, leaving at the first one too close. */
  method TooClose(candidate: Vec3, cs: seq<Vec3>, m: MathLib) returns (b: bool)
    ensures b <==> CloseToAny(candidate, cs, m)
  {
    b := false;
    var i := 0;
    while i < |cs|
      invariant i <= |cs|
      invariant forall j :: 0 <= j < i ==> Length(Sub(candidate, cs[j]), m) >= MinSeedSpacing
    {
      if Length(Sub(candidate, cs[i]), m) < MinSeedSpacing {
        b := true;
        return;
      }
      i := i + 1;
    }
  }

  lemma {:induction false} DistinctCard(s: seq<nat>)
    requires Distinct(s)
    ensures |SetOf(s)| == |s|
    decreases |s|
  {
    if s != [] {
      var init := s[..|s| - 1];
      var x := s[|s| - 1];
      assert s == init + [x];
      assert Distinct(init);
      DistinctCard(init);
      assert x !in init;
      assert SetOf(s) == SetOf(init) + {x};
    }
  }

  lemma SmallerSubsetMisses(a: set<nat>, b: set<nat>)
    requires a <= b && |a| < |b|
    ensures exists x :: x in b && x !in a
  {
    var d := b - a;
    assert b == a + d;
    assert |d| > 0;
    var x :| x in d;
    assert x in b && x !in a;
  }

  /**
   * generateCentroids: untried vertices of the plate are drawn until n seeds
   * are taken or every vertex has been tried; a candidate closer than 0.3 to a
   * seed already taken is rejected. The seeds come from distinct plate vertices.
   */
  method GenerateCentroids(p: Plate, vertices: seq<Vec3>, n: nat, m: MathLib)
    returns (centroids: seq<Vec3>, ghost chosen: seq<nat>)
    requires Distinct(p.vertices) && forall v :: v in p.vertices ==> v < |vertices|
    ensures |centroids| <= n && |chosen| == |centroids|
    ensures p.vertices == [] || n == 0 ==> centroids == []
    ensures Distinct(chosen)
    ensures forall i :: 0 <= i < |chosen| ==> chosen[i] in p.vertices && centroids[i] == vertices[chosen[i]]
    ensures Spread(centroids, m)
    ensures p.vertices != [] && n > 0 ==> centroids != []
    ensures |centroids| < n ==> forall v :: v in p.vertices ==> v in chosen || CloseToAny(vertices[v], centroids, m)
  {
    centroids, chosen := [], [];
    var vs := p.vertices;
    if vs == [] || n == 0 {
      return;
    }
    var selected: set<nat> := {};
    DistinctCard(vs);
    while |centroids| < n && |selected| < |vs|
      invariant selected <= SetOf(vs)
      invariant |centroids| <= n && |chosen| == |centroids|
      invariant Distinct(chosen)
      invariant forall i :: 0 <= i < |chosen| ==> chosen[i] in selected && chosen[i] in vs && centroids[i] == vertices[chosen[i]]
      invariant Spread(centroids, m)
      invariant selected != {} ==> centroids != []
      invariant forall v :: v in selected ==> v < |vertices| && (v in chosen || CloseToAny(vertices[v], centroids, m))
      decreases |vs| - |selected|
    {
      SmallerSubsetMisses(selected, SetOf(vs));
      var vertexIdx :| vertexIdx in vs && vertexIdx !in selected;
      ghost var tried := selected;
      selected := selected + {vertexIdx};
      var candidate := vertices[vertexIdx];
      var tooClose := TooClose(candidate, centroids, m);
      if !tooClose {
        CloseToAnyGrows(vertices, tried, chosen, centroids, candidate, m);
        centroids := centroids + [candidate];
        chosen := chosen + [vertexIdx];
      }
    }
    if |centroids| < n {
      FullSubset(selected, SetOf(vs));
    }
  }

  /** A vertex close to a seed stays close to it when another seed is taken. */
  lemma CloseToAnyGrows(vertices: seq<Vec3>, selected: set<nat>, chosen: seq<nat>, cs: seq<Vec3>, c: Vec3, m: MathLib)
    requires forall v :: v in selected ==> v < |vertices| && (v in chosen || CloseToAny(vertices[v], cs, m))
    ensures forall v :: v in selected ==> v < |vertices| && (v in chosen || CloseToAny(vertices[v], cs + [c], m))
  {
    forall v | v in selected && v !in chosen
      ensures CloseToAny(vertices[v], cs + [c], m)
    {
      var i :| 0 <= i < |cs| && Length(Sub(vertices[v], cs[i]), m) < MinSeedSpacing;
      assert (cs + [c])[i] == cs[i];
    }
  }

  /** A subset at least as large as its superset is the whole of it. */
  lemma FullSubset(a: set<nat>, b: set<nat>)
    requires a <= b && |a| >= |b|
    ensures a == b
  {
    if a != b {
      var x :| x in b && x !in a;
      assert a <= b - {x};
      SubsetCard(a, b - {x});
    }
  }

  lemma {:induction false} SubsetCard(a: set<nat>, b: set<nat>)
    requires a <= b
    ensures |a| <= |b|
    decreases |a|
  {
    if a != {} {
      var x :| x in a;
      SubsetCard(a - {x}, b - {x});
    }
  }

  // ---------------------------------------------------------------------------
  // Voronoi cells

  /** The squared distances from vertex v to the seeds. */
  function CellDistances(vertices: seq<Vec3>, centroids: seq<Vec3>, v: nat): (ds: seq<real>)
    requires v < |vertices|
    ensures |ds| == |centroids|
  {
    seq(|centroids|, i requires 0 <= i < |centroids| => SqLen(Sub(vertices[v], centroids[i])))
  }

  /** The cell of every vertex: its nearest seed if it is listed, 0 otherwise. */
  function Voronoi(list: seq<nat>, vertices: seq<Vec3>, centroids: seq<Vec3>): (a: seq<nat>)
    ensures |a| == |vertices|
  {
    seq(|vertices|, v requires 0 <= v < |vertices| =>
      if v in list then FirstMin(CellDistances(vertices, centroids, v)) else 0)
  }

  /**
   * A listed vertex gets the seed nearest to it, the first on ties; every other
   * vertex gets 0, and no cell names a seed that does not exist.
   */
  lemma VoronoiNearest(list: seq<nat>, vertices: seq<Vec3>, centroids: seq<Vec3>, v: nat)
    requires v < |vertices| && |centroids| > 0
    ensures var a := Voronoi(list, vertices, centroids);
      && a[v] < |centroids|
      && (v !in list ==> a[v] == 0)
      && (v in list ==> forall i :: 0 <= i < |centroids| ==>
            && SqLen(Sub(vertices[v], centroids[a[v]])) <= SqLen(Sub(vertices[v], centroids[i]))
            && (i < a[v] ==> SqLen(Sub(vertices[v], centroids[a[v]])) < SqLen(Sub(vertices[v], centroids[i]))))
  {
    var ds := CellDistances(vertices, centroids, v);
    assert forall i :: 0 <= i < |centroids| ==> ds[i] == SqLen(Sub(vertices[v], centroids[i]));
  }

  /** assignToVoronoiCells. */
  method AssignToVoronoiCells(list: seq<nat>, vertices: seq<Vec3>, centroids: seq<Vec3>) returns (a: seq<nat>)
    ensures a == Voronoi(list, vertices, centroids)
  {
    a := seq(|vertices|, _ => 0);
    var i := 0;
    while i < |list|
      invariant i <= |list| && |a| == |vertices|
      invariant forall v :: 0 <= v < |vertices| ==>
        a[v] == if v in list[..i] then FirstMin(CellDistances(vertices, centroids, v)) else 0
    {
      assert list[..i + 1] == list[..i] + [list[i]];
      var vIdx := list[i];
      if vIdx < |vertices| {
        var closest := ArgMin(CellDistances(vertices, centroids, vIdx));
        a := a[vIdx := closest];
      }
      i := i + 1;
    }
    assert list[..i] == list;
  }

  // ---------------------------------------------------------------------------
  // Warping the seam

  /** Vertex i has adjacency and a neighbour in another cell. */
  predicate IsBoundary(cells: seq<nat>, neighbors: seq<seq<nat>>, i: nat)
    requires i < |cells|
  {
    i < |neighbors| && exists nb :: nb in neighbors[i] && nb < |cells| && cells[nb] != cells[i]
  }

  /** The loop over the neighbours of one vertex, leaving at the first in another cell. */
  method HasOtherCell(cells: seq<nat>, nbs: seq<nat>, mine: nat) returns (b: bool)
    ensures b <==> exists nb :: nb in nbs && nb < |cells| && cells[nb] != mine
  {
    b := false;
    var j := 0;
    while j < |nbs|
      invariant j <= |nbs|
      invariant forall k :: 0 <= k < j ==> !(nbs[k] < |cells| && cells[nbs[k]] != mine)
    {
      if nbs[j] < |cells| && cells[nbs[j]] != mine {
        b := true;
        return;
      }
      j := j + 1;
    }
  }

  /** The first pass: which vertices lie on the seam. */
  method BoundaryFlags(cells: seq<nat>, neighbors: seq<seq<nat>>) returns (flags: seq<bool>)
    ensures |flags| == |cells|
    ensures forall i :: 0 <= i < |cells| ==> (flags[i] <==> IsBoundary(cells, neighbors, i))
  {
    flags := seq(|cells|, _ => false);
    var i := 0;
    while i < |cells|
      invariant i <= |cells| && |flags| == |cells|
      invariant forall j :: 0 <= j < i ==> (flags[j] <==> IsBoundary(cells, neighbors, j))
      invariant forall j :: i <= j < |cells| ==> !flags[j]
    {
      if i < |neighbors| {
        var b := HasOtherCell(cells, neighbors[i], cells[i]);
        flags := flags[i := b];
      }
      i := i + 1;
    }
  }

  /** The cells of the existing neighbours, in neighbour order. */
  function NeighbourCells(cells: seq<nat>, nbs: seq<nat>): (r: seq<nat>)
    ensures forall c :: c in r <==> exists nb :: nb in nbs && nb < |cells| && cells[nb] == c
    decreases |nbs|
  {
    if nbs == [] then []
    else
      var nb := nbs[|nbs| - 1];
      var r := NeighbourCells(cells, nbs[..|nbs| - 1]);
      assert nbs == nbs[..|nbs| - 1] + [nb];
      if nb < |cells| then r + [cells[nb]] else r
  }

  /** The loop that collects them. */
  method CollectNeighbourCells(cells: seq<nat>, nbs: seq<nat>) returns (r: seq<nat>)
    ensures r == NeighbourCells(cells, nbs)
  {
    r := [];
    var j := 0;
    while j < |nbs|
      invariant j <= |nbs| && r == NeighbourCells(cells, nbs[..j])
    {
      assert nbs[..j + 1][..j] == nbs[..j];
      if nbs[j] < |cells| {
        r := r + [cells[nbs[j]]];
      }
      j := j + 1;
    }
    assert nbs[..j] == nbs;
  }

  /** A value std::uniform_real_distribution(-1, 1) can return. */
  predicate SignedDraw(u: real)
  {
    -1.0 <= u < 1.0
  }

  /**
   * The value vertex i saw at neighbour nb during the second pass: the new
   * value for an earlier vertex, the original one otherwise.
   */
  function SeenCell(cells: seq<nat>, r: seq<nat>, nb: nat, i: nat): nat
    requires nb < |cells| && nb < |r|
  {
    if nb < i then r[nb] else cells[nb]
  }

  /** Vertex i ends in its own cell or in the cell it saw at one of its neighbours. */
  predicate WarpedFromNeighbour(cells: seq<nat>, neighbors: seq<seq<nat>>, r: seq<nat>, i: nat)
    requires i < |cells| && |r| == |cells|
  {
    r[i] == cells[i] ||
    (i < |neighbors| && exists nb :: nb in neighbors[i] && nb < |cells| && r[i] == SeenCell(cells, r, nb, i))
  }

  /** Writing vertex i leaves what the earlier vertices saw unchanged. */
  lemma WarpStep(cells: seq<nat>, neighbors: seq<seq<nat>>, r0: seq<nat>, i: nat, r: seq<nat>)
    requires |r0| == |cells| && i < |cells| && |r| == |r0|
    requires forall j :: 0 <= j < |r| && j != i ==> r[j] == r0[j]
    requires forall j :: 0 <= j < i ==> WarpedFromNeighbour(cells, neighbors, r0, j)
    ensures forall j :: 0 <= j < i ==> WarpedFromNeighbour(cells, neighbors, r, j)
  {
    forall j | 0 <= j < i
      ensures WarpedFromNeighbour(cells, neighbors, r, j)
    {
      assert WarpedFromNeighbour(cells, neighbors, r0, j);
      if r0[j] != cells[j] {
        var nb :| nb in neighbors[j] && nb < |cells| && r0[j] == SeenCell(cells, r0, nb, j);
        assert SeenCell(cells, r, nb, j) == SeenCell(cells, r0, nb, j);
      }
    }
  }

  /**
   * warpBoundaries: each seam vertex, in vertex order, with probability set by
   * the strength, takes the current cell of a random existing neighbour. Only
   * seam vertices change, only to a cell a neighbour holds at that moment, no new
   * cell appears, and a strength of -1 or less changes nothing.
   */
  method WarpBoundaries(cells: seq<nat>, neighbors: seq<seq<nat>>, strength: real) returns (r: seq<nat>)
    ensures |r| == |cells|
    ensures forall i :: 0 <= i < |r| && r[i] != cells[i] ==> IsBoundary(cells, neighbors, i)
    ensures forall i :: 0 <= i < |r| ==> WarpedFromNeighbour(cells, neighbors, r, i)
    ensures forall i :: 0 <= i < |r| ==> r[i] in cells
    ensures strength <= -1.0 ==> r == cells
  {
    var flags := BoundaryFlags(cells, neighbors);
    r := cells;
    var i := 0;
    while i < |cells|
      invariant i <= |cells| && |r| == |cells|
      invariant forall j :: i <= j < |cells| ==> r[j] == cells[j]
      invariant forall j :: 0 <= j < i && r[j] != cells[j] ==> IsBoundary(cells, neighbors, j)
      invariant forall j :: 0 <= j < i ==> WarpedFromNeighbour(cells, neighbors, r, j)
      invariant forall j :: 0 <= j < |r| ==> r[j] in cells
      invariant strength <= -1.0 ==> r == cells
    {
      if flags[i] {
        assert SignedDraw(0.0);
        var u: real :| SignedDraw(u);
        assert SignedDraw(u);
        if u < strength && i < |neighbors| {
          var options := CollectNeighbourCells(r, neighbors[i]);
          if options != [] {
            var c :| 0 <= c < |options|;
            assert options[c] in options;
            ghost var nb :| nb in neighbors[i] && nb < |r| && r[nb] == options[c];
            assert r[nb] == SeenCell(cells, r, nb, i);
            assert r[nb] in cells;
            ghost var r0 := r;
            r := r[i := options[c]];
            WarpStep(cells, neighbors, r0, i, r);
            assert r[i] == SeenCell(cells, r, nb, i);
            assert r[i] in cells;
          }
        }
      }
      i := i + 1;
    }
  }

  // ---------------------------------------------------------------------------
  // Fragments

  /** The listed vertices in cell f, in list order. */
  function Fragment(vs: seq<nat>, cells: seq<nat>, f: nat): (r: seq<nat>)
    ensures forall v :: v in r <==> v in vs && v < |cells| && cells[v] == f
    decreases |vs|
  {
    if vs == [] then []
    else
      var v := vs[|vs| - 1];
      var r := Fragment(vs[..|vs| - 1], cells, f);
      assert vs == vs[..|vs| - 1] + [v];
      if v < |cells| && cells[v] == f then r + [v] else r
  }

  /** The loop that fills newPlatesVertices. */
  method SplitVertices(vs: seq<nat>, cells: seq<nat>, k: nat) returns (frags: seq<seq<nat>>)
    ensures |frags| == k
    ensures forall f :: 0 <= f < k ==> frags[f] == Fragment(vs, cells, f)
  {
    frags := seq(k, _ => []);
    var i := 0;
    while i < |vs|
      invariant i <= |vs| && |frags| == k
      invariant forall f :: 0 <= f < k ==> frags[f] == Fragment(vs[..i], cells, f)
    {
      assert vs[..i + 1][..i] == vs[..i];
      var v := vs[i];
      if v < |cells| {
        var c := cells[v];
        if c < k {
          frags := frags[c := frags[c] + [v]];
        }
      }
      i := i + 1;
    }
    assert vs[..i] == vs;
  }

  /**
   * When every listed vertex has a cell below k, the fragments partition the
   * list: each listed vertex is in exactly one of them, the one of its cell.
   */
  lemma FragmentsPartition(vs: seq<nat>, cells: seq<nat>, k: nat)
    requires forall v :: v in vs ==> v < |cells| && cells[v] < k
    ensures forall v :: v in vs ==> v in Fragment(vs, cells, cells[v])
    ensures forall v, f :: 0 <= f < k && v in Fragment(vs, cells, f) ==> v in vs && f == cells[v]
  {
  }

  // ---------------------------------------------------------------------------
  // Fresh motions

  /** The axis (sin phi cos theta, sin phi sin theta, cos phi) before normalisation. */
  function SphericalAxis(theta: real, phi: real, m: MathLib): Vec3
  {
    Vec3(m.sin(phi) * m.cos(theta), m.sin(phi) * m.sin(theta), m.cos(phi))
  }

  lemma {:induction false} SphericalTerms(sp: real, cp: real, ct: real, st: real)
    requires Sq(ct) + Sq(st) == 1.0 && Sq(sp) + Sq(cp) == 1.0
    ensures Sq(sp * ct) + Sq(sp * st) + Sq(cp) == 1.0
  {
    assert Sq(sp * ct) == Sq(sp) * Sq(ct);
    assert Sq(sp * st) == Sq(sp) * Sq(st);
    assert Sq(sp) * Sq(ct) + Sq(sp) * Sq(st) == Sq(sp) * (Sq(ct) + Sq(st));
  }

  /** The spherical axis is already a unit vector. */
  lemma SphericalAxisIsUnit(theta: real, phi: real, m: MathLib)
    requires Lawful(m)
    ensures SqLen(SphericalAxis(theta, phi, m)) == 1.0
  {
    TrigLaw(m, theta);
    TrigLaw(m, phi);
    SphericalTerms(m.sin(phi), m.cos(phi), m.cos(theta), m.sin(theta));
  }

  /** A value std::uniform_real_distribution(0, 2 pi) can return. */
  predicate AngleDraw(a: real)
  {
    0.0 <= a < 2.0 * Pi
  }

  /** The motion every fragment is given: a random unit axis and a speed in [0.1, 0.9). */
  method DrawPlateMotion(m: MathLib) returns (axis: Vec3, velocity: real)
    ensures UniformDraw(velocity)
    ensures Lawful(m) ==> SqLen(axis) == 1.0
  {
    assert AngleDraw(0.0) && UniformDraw(0.5);
    var theta: real :| AngleDraw(theta);
    var phi: real :| AngleDraw(phi);
    var a := SphericalAxis(theta, phi, m);
    axis := Normalize(a, m);
    if Lawful(m) {
      SphericalAxisIsUnit(theta, phi, m);
      SqLenZero(a);
      NormalizeIsUnit(a, m);
    }
    velocity :| UniformDraw(velocity);
  }

  // ---------------------------------------------------------------------------
  // Splitting one plate

  /** A value std::uniform_int_distribution(2, 3) can return. */
  predicate FragmentCountDraw(c: nat)
  {
    c == 2 || c == 3
  }

  /** What riftPlate needs of the plate: distinct vertices, all of them on the mesh. */
  predicate PlateIndexed(p: Plate, n: nat)
  {
    Distinct(p.vertices) && forall v :: v in p.vertices ==> v < n
  }

  /** The index fragment f ends up at: the plate's own for fragment 0, appended after the n plates otherwise. */
  function FragmentPlate(f: nat, idx: nat, n: nat): (p: nat)
    ensures f == 0 ==> p == idx
    ensures f > 0 ==> n <= p && p - n + 1 == f
  {
    if f == 0 then idx else n + f - 1
  }

  /** The ownership array once the fragments below k have been given to their plates. */
  function RiftOwners(owner: seq<nat>, vs: seq<nat>, cells: seq<nat>, idx: nat, n: nat, k: nat): (r: seq<nat>)
    ensures |r| == |owner|
  {
    seq(|owner|, v requires 0 <= v < |owner| =>
      if v in vs && v < |cells| && cells[v] < k then FragmentPlate(cells[v], idx, n) else owner[v])
  }

  /** The loop that gives the listed vertices on the ownership array to plate p. */
  method GiveVertices(planet: Planet, list: seq<nat>, p: nat)
    modifies planet`verticesToPlates
    ensures |planet.verticesToPlates| == |old(planet.verticesToPlates)|
    ensures forall v :: 0 <= v < |planet.verticesToPlates| ==>
      planet.verticesToPlates[v] == if v in list then p else old(planet.verticesToPlates)[v]
  {
    ghost var owner0 := planet.verticesToPlates;
    var i := 0;
    while i < |list|
      invariant i <= |list| && |planet.verticesToPlates| == |owner0|
      invariant forall v :: 0 <= v < |owner0| ==>
        planet.verticesToPlates[v] == if v in list[..i] then p else owner0[v]
    {
      assert list[..i + 1] == list[..i] + [list[i]];
      if list[i] < |planet.verticesToPlates| {
        planet.verticesToPlates := planet.verticesToPlates[list[i] := p];
      }
      i := i + 1;
    }
    assert list[..i] == list;
  }

  /** A plate made from a fragment: its vertices, a fresh motion and its terranes recomputed. */
  ghost predicate FreshFragment(p: Plate, frag: seq<nat>, crust: seq<Option<Crust>>, neighbors: seq<seq<nat>>,
                                vertices: seq<Vec3>, radius: real, m: MathLib)
  {
    && p.vertices == frag
    && UniformDraw(p.velocity)
    && (Lawful(m) ==> SqLen(p.rotationAxis) == 1.0)
    && TerranesOf(frag, crust, neighbors, vertices, radius, m, p.terranes, p.terraneCentroids)
  }

  /** A plate appended for a fragment f > 0: a fresh fragment plate with an empty frontier cache. */
  ghost predicate NewFragment(p: Plate, frag: seq<nat>, crust: seq<Option<Crust>>, neighbors: seq<seq<nat>>,
                              vertices: seq<Vec3>, radius: real, m: MathLib)
  {
    FreshFragment(p, frag, crust, neighbors, vertices, radius, m) && p.closestFrontier == map[]
  }

  /** Fragments 1 to f - 1 of the plate's vertices sit, in order, after the first n plates. */
  ghost predicate Appended(plates: seq<Plate>, idx: nat, n: nat, vs: seq<nat>, cells: seq<nat>, f: nat,
                           crust: seq<Option<Crust>>, neighbors: seq<seq<nat>>, vertices: seq<Vec3>, radius: real, m: MathLib)
  {
    forall g :: 1 <= g < f ==>
      FragmentPlate(g, idx, n) < |plates| &&
      NewFragment(plates[FragmentPlate(g, idx, n)], Fragment(vs, cells, g), crust, neighbors, vertices, radius, m)
  }

  /** Appending the plate of fragment f extends the run by one. */
  lemma AppendedStep(before: seq<Plate>, plates: seq<Plate>, idx: nat, n: nat, vs: seq<nat>, cells: seq<nat>, f: nat,
                     crust: seq<Option<Crust>>, neighbors: seq<seq<nat>>, vertices: seq<Vec3>, radius: real, m: MathLib)
    requires f >= 1 && |before| == n + f - 1 && |plates| == |before| + 1
    requires forall p :: 0 <= p < |before| ==> plates[p] == before[p]
    requires Appended(before, idx, n, vs, cells, f, crust, neighbors, vertices, radius, m)
    requires NewFragment(plates[|before|], Fragment(vs, cells, f), crust, neighbors, vertices, radius, m)
    ensures Appended(plates, idx, n, vs, cells, f + 1, crust, neighbors, vertices, radius, m)
  {
    forall g | 1 <= g < f + 1
      ensures FragmentPlate(g, idx, n) < |plates|
      ensures NewFragment(plates[FragmentPlate(g, idx, n)], Fragment(vs, cells, g), crust, neighbors, vertices, radius, m)
    {
      if g < f {
        assert plates[FragmentPlate(g, idx, n)] == before[FragmentPlate(g, idx, n)];
      }
    }
  }

  /**
   * The plates and the ownership array after plate idx was split into k
   * fragments by the cells: fragment 0 in place of the plate, keeping its
   * frontier cache, fragment f > 0 appended with an empty cache, the other
   * plates untouched, and every fragment vertex owned by its fragment's plate.
   */
  ghost predicate Rifted(plates0: seq<Plate>, owner0: seq<nat>, plates: seq<Plate>, owner: seq<nat>, idx: nat, k: nat,
                         cells: seq<nat>, crust: seq<Option<Crust>>, neighbors: seq<seq<nat>>,
                         vertices: seq<Vec3>, radius: real, m: MathLib)
    requires idx < |plates0|
  {
    var vs := plates0[idx].vertices;
    var n := |plates0|;
    && k >= 1 && |plates| == n + k - 1
    && FreshFragment(plates[idx], Fragment(vs, cells, 0), crust, neighbors, vertices, radius, m)
    && plates[idx].closestFrontier == plates0[idx].closestFrontier
    && Appended(plates, idx, n, vs, cells, k, crust, neighbors, vertices, radius, m)
    && (forall p :: 0 <= p < n && p != idx ==> plates[p] == plates0[p])
    && owner == RiftOwners(owner0, vs, cells, idx, n, k)
  }

  /** The cells are the base cells with the seam warped. */
  predicate Seam(base: seq<nat>, neighbors: seq<seq<nat>>, cells: seq<nat>)
  {
    && |cells| == |base|
    && (forall i :: 0 <= i < |cells| && cells[i] != base[i] ==> IsBoundary(base, neighbors, i))
    && (forall i :: 0 <= i < |cells| ==> WarpedFromNeighbour(base, neighbors, cells, i))
  }

  lemma VoronoiBelow(list: seq<nat>, vertices: seq<Vec3>, centroids: seq<Vec3>)
    requires |centroids| > 0
    ensures forall v :: 0 <= v < |vertices| ==> Voronoi(list, vertices, centroids)[v] < |centroids|
  {
    forall v | 0 <= v < |vertices|
      ensures Voronoi(list, vertices, centroids)[v] < |centroids|
    {
      VoronoiNearest(list, vertices, centroids, v);
    }
  }

  /** Fragments are distinct vertex lists when the plate's list is. */
  lemma FragmentDistinct(vs: seq<nat>, cells: seq<nat>, f: nat)
    requires Distinct(vs)
    ensures Distinct(Fragment(vs, cells, f))
    decreases |vs|
  {
    if vs != [] {
      var init := vs[..|vs| - 1];
      assert vs == init + [vs[|vs| - 1]];
      assert Distinct(init);
      FragmentDistinct(init, cells, f);
    }
  }

  /** The positions of the plate's vertices. */
  function Sites(vs: seq<nat>, vertices: seq<Vec3>): set<Vec3>
  {
    set v | v in vs && v < |vertices| :: vertices[v]
  }

  /** count seeds at least 0.3 apart, each at a vertex of the plate. */
  predicate SeedsOf(vs: seq<nat>, vertices: seq<Vec3>, count: nat, seeds: seq<Vec3>, m: MathLib)
  {
    && |seeds| == count && Spread(seeds, m)
    && forall i :: 0 <= i < |seeds| ==> seeds[i] in Sites(vs, vertices)
  }

  /** The warped Voronoi cells of the seeds, naming a seed for every plate vertex. */
  predicate CellsOf(vs: seq<nat>, vertices: seq<Vec3>, neighbors: seq<seq<nat>>, seeds: seq<Vec3>, cells: seq<nat>)
  {
    && Seam(Voronoi(vs, vertices, seeds), neighbors, cells)
    && forall v :: v in vs ==> v < |cells| && cells[v] < |seeds|
  }

  /** count fragments, none of them empty, each the plate's vertices in one cell. */
  predicate FragmentsOf(vs: seq<nat>, cells: seq<nat>, count: nat, frags: seq<seq<nat>>)
  {
    && |frags| == count
    && forall f :: 0 <= f < count ==> frags[f] == Fragment(vs, cells, f) && frags[f] != []
  }

  /** The split of a plate's vertices into count non-empty fragments along the warped cells of count seeds. */
  predicate SplitOutcome(vs: seq<nat>, vertices: seq<Vec3>, neighbors: seq<seq<nat>>, count: nat,
                         seeds: seq<Vec3>, cells: seq<nat>, frags: seq<seq<nat>>, m: MathLib)
  {
    && SeedsOf(vs, vertices, count, seeds, m)
    && CellsOf(vs, vertices, neighbors, seeds, cells)
    && FragmentsOf(vs, cells, count, frags)
  }

  /** generateCentroids followed by the check that all count seeds were placed. */
  method PlaceSeeds(original: Plate, vertices: seq<Vec3>, count: nat, m: MathLib) returns (ok: bool, seeds: seq<Vec3>)
    requires PlateIndexed(original, |vertices|)
    ensures ok ==> SeedsOf(original.vertices, vertices, count, seeds, m)
  {
    ghost var chosen;
    seeds, chosen := GenerateCentroids(original, vertices, count, m);
    ok := |seeds| >= count;
    if ok {
      forall i | 0 <= i < |seeds|
        ensures seeds[i] in Sites(original.vertices, vertices)
      {
        assert chosen[i] in original.vertices && chosen[i] < |vertices| && seeds[i] == vertices[chosen[i]];
      }
    }
  }

  /** assignToVoronoiCells followed by warpBoundaries. */
  method WarpedCells(vs: seq<nat>, vertices: seq<Vec3>, neighbors: seq<seq<nat>>, seeds: seq<Vec3>) returns (cells: seq<nat>)
    requires |seeds| >= 1 && forall v :: v in vs ==> v < |vertices|
    ensures CellsOf(vs, vertices, neighbors, seeds, cells)
  {
    var base := AssignToVoronoiCells(vs, vertices, seeds);
    cells := WarpBoundaries(base, neighbors, WarpStrength);
    VoronoiBelow(vs, vertices, seeds);
    forall v | v in vs
      ensures v < |cells| && cells[v] < |seeds|
    {
      assert cells[v] in base;
    }
  }

  /** The fragments, and the check that none of them is empty. */
  method CheckedFragments(vs: seq<nat>, cells: seq<nat>, count: nat) returns (ok: bool, frags: seq<seq<nat>>)
    ensures ok ==> FragmentsOf(vs, cells, count, frags)
  {
    frags := SplitVertices(vs, cells, count);
    var i := 0;
    while i < count
      invariant i <= count
      invariant forall f :: 0 <= f < i ==> frags[f] != []
    {
      if frags[i] == [] {
        return false, frags;
      }
      i := i + 1;
    }
    ok := true;
  }

  /**
   * The part of riftPlate that only computes: seeds, cells and fragments, or a
   * refusal when too few seeds could be placed or a fragment is empty.
   */
  method SplitPlate(original: Plate, vertices: seq<Vec3>, neighbors: seq<seq<nat>>, count: nat, m: MathLib)
    returns (ok: bool, seeds: seq<Vec3>, cells: seq<nat>, frags: seq<seq<nat>>)
    requires PlateIndexed(original, |vertices|) && count >= 1
    ensures ok ==> SplitOutcome(original.vertices, vertices, neighbors, count, seeds, cells, frags, m)
  {
    cells, frags := [], [];
    ok, seeds := PlaceSeeds(original, vertices, count, m);
    if !ok {
      return;
    }
    cells := WarpedCells(original.vertices, vertices, neighbors, seeds);
    ok, frags := CheckedFragments(original.vertices, cells, count);
  }

  /** Giving fragment f to its plate takes the ownership array one fragment further. */
  lemma RiftOwnersStep(owner0: seq<nat>, vs: seq<nat>, cells: seq<nat>, idx: nat, n: nat, f: nat,
                       owners: seq<nat>, owners': seq<nat>)
    requires owners == RiftOwners(owner0, vs, cells, idx, n, f) && |owners'| == |owners|
    requires forall v :: 0 <= v < |owners'| ==>
      owners'[v] == if v in Fragment(vs, cells, f) then FragmentPlate(f, idx, n) else owners[v]
    ensures owners' == RiftOwners(owner0, vs, cells, idx, n, f + 1)
  {
  }

  /** Fragment 0 takes the place of the plate, keeping its frontier cache. */
  method ReplaceWithFragment(planet: Planet, plateIndex: nat, frag: seq<nat>, m: MathLib)
    requires plateIndex < |planet.plates|
    modifies planet`plates, planet`verticesToPlates
    ensures |planet.plates| == |old(planet.plates)|
    ensures forall p :: 0 <= p < |planet.plates| && p != plateIndex ==> planet.plates[p] == old(planet.plates)[p]
    ensures FreshFragment(planet.plates[plateIndex], frag, planet.crustData, planet.neighbors, planet.vertices, planet.radius, m)
    ensures planet.plates[plateIndex].closestFrontier == old(planet.plates)[plateIndex].closestFrontier
    ensures |planet.verticesToPlates| == |old(planet.verticesToPlates)|
    ensures forall v :: 0 <= v < |planet.verticesToPlates| ==>
      planet.verticesToPlates[v] == if v in frag then plateIndex else old(planet.verticesToPlates)[v]
  {
    var axis, velocity := DrawPlateMotion(m);
    var plate := planet.plates[plateIndex].(vertices := frag, rotationAxis := axis, velocity := velocity);
    GiveVertices(planet, frag, plateIndex);
    var terranes, terraneCentroids, groups := FillTerranes(plate, planet.crustData, planet.neighbors, planet.vertices, planet.radius, m);
    planet.plates := planet.plates[plateIndex := plate.(terranes := terranes, terraneCentroids := terraneCentroids)];
  }

  /** A further fragment becomes a new plate at the end of the list, with an empty frontier cache. */
  method AppendFragment(planet: Planet, frag: seq<nat>, m: MathLib)
    modifies planet`plates, planet`verticesToPlates
    ensures |planet.plates| == |old(planet.plates)| + 1
    ensures planet.plates[..|old(planet.plates)|] == old(planet.plates)
    ensures NewFragment(planet.plates[|old(planet.plates)|], frag, planet.crustData, planet.neighbors, planet.vertices, planet.radius, m)
    ensures |planet.verticesToPlates| == |old(planet.verticesToPlates)|
    ensures forall v :: 0 <= v < |planet.verticesToPlates| ==>
      planet.verticesToPlates[v] == if v in frag then |old(planet.plates)| else old(planet.verticesToPlates)[v]
  {
    var axis, velocity := DrawPlateMotion(m);
    var plate := Plate(frag, axis, velocity, map[], [], []);
    var newIndex := |planet.plates|;
    planet.plates := planet.plates + [plate];
    GiveVertices(planet, frag, newIndex);
    var terranes, terraneCentroids, groups := FillTerranes(plate, planet.crustData, planet.neighbors, planet.vertices, planet.radius, m);
    planet.plates := planet.plates[newIndex := plate.(terranes := terranes, terraneCentroids := terraneCentroids)];
  }

  /**
   * The part of riftPlate that changes the planet: fragment 0 replaces the
   * plate's vertex list, motion and terranes, the others are appended as new
   * plates, and every fragment's vertices are given to its plate.
   */
  method PlaceFragments(planet: Planet, plateIndex: nat, frags: seq<seq<nat>>, ghost cells: seq<nat>, m: MathLib)
    requires plateIndex < |planet.plates| && |frags| >= 1
    requires forall f :: 0 <= f < |frags| ==> frags[f] == Fragment(planet.plates[plateIndex].vertices, cells, f)
    modifies planet`plates, planet`verticesToPlates
    ensures Rifted(old(planet.plates), old(planet.verticesToPlates), planet.plates, planet.verticesToPlates, plateIndex, |frags|,
                   cells, planet.crustData, planet.neighbors, planet.vertices, planet.radius, m)
  {
    ghost var plates0 := planet.plates;
    ghost var owner0 := planet.verticesToPlates;
    ghost var vs := plates0[plateIndex].vertices;
    var n := |planet.plates|;

    ReplaceWithFragment(planet, plateIndex, frags[0], m);
    RiftOwnersStep(owner0, vs, cells, plateIndex, n, 0, owner0, planet.verticesToPlates);
    ghost var first := planet.plates[plateIndex];

    var f := 1;
    while f < |frags|
      invariant 1 <= f <= |frags| && |planet.plates| == n + f - 1
      invariant planet.plates[plateIndex] == first
      invariant forall p :: 0 <= p < n && p != plateIndex ==> planet.plates[p] == plates0[p]
      invariant Appended(planet.plates, plateIndex, n, vs, cells, f, planet.crustData, planet.neighbors, planet.vertices, planet.radius, m)
      invariant planet.verticesToPlates == RiftOwners(owner0, vs, cells, plateIndex, n, f)
    {
      ghost var before := planet.plates;
      ghost var owners := planet.verticesToPlates;
      AppendFragment(planet, frags[f], m);
      RiftOwnersStep(owner0, vs, cells, plateIndex, n, f, owners, planet.verticesToPlates);
      assert forall p :: 0 <= p < |before| ==> planet.plates[p] == before[p];
      AppendedStep(before, planet.plates, plateIndex, n, vs, cells, f, planet.crustData, planet.neighbors, planet.vertices, planet.radius, m);
      f := f + 1;
    }
  }

  /**
   * riftPlate: nothing changes when the index is out of range, the plate is
   * below the size threshold, fewer seeds than fragments could be placed, or a
   * fragment came out empty. Otherwise the plate is split along the warped
   * Voronoi cells of seeds at least 0.3 apart, into numFragments fragments, or
   * two or three when numFragments is 0.
   */
  method RiftPlate(planet: Planet, plateIndex: nat, numFragments: nat, m: MathLib)
    returns (ok: bool, ghost k: nat, ghost seeds: seq<Vec3>, ghost cells: seq<nat>)
    requires plateIndex < |planet.plates| ==> PlateIndexed(planet.plates[plateIndex], |planet.vertices|)
    modifies planet`plates, planet`verticesToPlates
    ensures !ok ==> planet.plates == old(planet.plates) && planet.verticesToPlates == old(planet.verticesToPlates)
    ensures plateIndex >= |old(planet.plates)| || !IsPlateRiftable(old(planet.plates)[plateIndex], MinRiftVertices) ==> !ok
    ensures ok ==> numFragments == 0 ==> k == 2 || k == 3
    ensures ok ==> numFragments != 0 ==> k == numFragments
    ensures ok ==> plateIndex < |old(planet.plates)| && IsPlateRiftable(old(planet.plates)[plateIndex], MinRiftVertices)
    ensures ok ==> SeedsOf(old(planet.plates)[plateIndex].vertices, planet.vertices, k, seeds, m)
    ensures ok ==> CellsOf(old(planet.plates)[plateIndex].vertices, planet.vertices, planet.neighbors, seeds, cells)
    ensures ok ==> forall f :: 0 <= f < k ==> Fragment(old(planet.plates)[plateIndex].vertices, cells, f) != []
    ensures ok ==> Rifted(old(planet.plates), old(planet.verticesToPlates), planet.plates, planet.verticesToPlates, plateIndex, k,
                          cells, planet.crustData, planet.neighbors, planet.vertices, planet.radius, m)
  {
    ok, k, seeds, cells := false, 0, [], [];
    if plateIndex >= |planet.plates| {
      return;
    }
    var original := planet.plates[plateIndex];
    if !IsPlateRiftable(original, MinRiftVertices) {
      return;
    }
    var count: nat := numFragments;
    if count == 0 {
      assert FragmentCountDraw(2);
      count :| FragmentCountDraw(count);
      assert FragmentCountDraw(count);
    }
    var split, centroids, assignments, frags := SplitPlate(original, planet.vertices, planet.neighbors, count, m);
    if !split {
      return;
    }
    PlaceFragments(planet, plateIndex, frags, assignments, m);
    ok, k, seeds, cells := true, count, centroids, assignments;
  }

  /**
   * A successful rift keeps the plates a partition of the mesh's vertices that
   * agrees with the ownership array.
   */
  lemma {:induction false} RiftKeepsPartition(plates0: seq<Plate>, owner0: seq<nat>, plates: seq<Plate>, owner: seq<nat>,
                                              idx: nat, k: nat, cells: seq<nat>, crust: seq<Option<Crust>>,
                                              neighbors: seq<seq<nat>>, vertices: seq<Vec3>, radius: real, m: MathLib, n: nat)
    requires Partitioned(plates0, owner0, n) && idx < |plates0|
    requires forall v :: v in plates0[idx].vertices ==> v < |cells| && cells[v] < k
    requires Rifted(plates0, owner0, plates, owner, idx, k, cells, crust, neighbors, vertices, radius, m)
    ensures Partitioned(plates, owner, n)
  {
    var vs := plates0[idx].vertices;
    var n0 := |plates0|;
    forall v | 0 <= v < n
      ensures owner[v] < |plates| && v in plates[owner[v]].vertices
    {
      if v in vs {
        var f := cells[v];
        assert owner[v] == FragmentPlate(f, idx, n0);
        assert v in Fragment(vs, cells, f);
      } else {
        assert owner[v] == owner0[v];
        assert owner0[v] != idx;
      }
    }
    assert |owner| == n;
    forall p | 0 <= p < |plates|
      ensures forall v :: v in plates[p].vertices ==> v < n && owner[v] == p
    {
      forall v | v in plates[p].vertices
        ensures v < n && owner[v] == p
      {
        RiftedVertexOwner(plates0, owner0, plates, owner, idx, k, cells, crust, neighbors, vertices, radius, m, n, p, v);
      }
    }
  }

  lemma RiftedVertexOwner(plates0: seq<Plate>, owner0: seq<nat>, plates: seq<Plate>, owner: seq<nat>,
                          idx: nat, k: nat, cells: seq<nat>, crust: seq<Option<Crust>>,
                          neighbors: seq<seq<nat>>, vertices: seq<Vec3>, radius: real, m: MathLib, n: nat, p: nat, v: nat)
    requires Partitioned(plates0, owner0, n) && idx < |plates0|
    requires forall v :: v in plates0[idx].vertices ==> v < |cells| && cells[v] < k
    requires Rifted(plates0, owner0, plates, owner, idx, k, cells, crust, neighbors, vertices, radius, m)
    requires p < |plates| && v in plates[p].vertices
    ensures v < n && owner[v] == p
  {
    var vs := plates0[idx].vertices;
    var n0 := |plates0|;
    {
      if p == idx {
        assert v in Fragment(vs, cells, 0);
      } else if p >= n0 {
        var f := p - n0 + 1;
        assert FragmentPlate(f, idx, n0) == p;
        assert v in Fragment(vs, cells, f);
      } else {
        assert v in plates0[p].vertices;
        assert v !in vs;
      }
    }
  }

  /** A successful rift keeps every plate's list distinct and on the mesh, so the next rift can run. */
  lemma {:induction false} RiftKeepsPlatesIndexed(plates0: seq<Plate>, owner0: seq<nat>, plates: seq<Plate>, owner: seq<nat>,
                                                  idx: nat, k: nat, cells: seq<nat>, crust: seq<Option<Crust>>,
                                                  neighbors: seq<seq<nat>>, vertices: seq<Vec3>, radius: real, m: MathLib, n: nat)
    requires idx < |plates0| && forall p :: 0 <= p < |plates0| ==> PlateIndexed(plates0[p], n)
    requires Rifted(plates0, owner0, plates, owner, idx, k, cells, crust, neighbors, vertices, radius, m)
    ensures forall p :: 0 <= p < |plates| ==> PlateIndexed(plates[p], n)
  {
    var vs := plates0[idx].vertices;
    var n0 := |plates0|;
    assert PlateIndexed(plates0[idx], n);
    forall p | 0 <= p < |plates|
      ensures PlateIndexed(plates[p], n)
    {
      if p == idx {
        FragmentDistinct(vs, cells, 0);
      } else if p >= n0 {
        var f := p - n0 + 1;
        assert FragmentPlate(f, idx, n0) == p;
        FragmentDistinct(vs, cells, f);
        assert plates[p].vertices == Fragment(vs, cells, f);
      }
    }
  }

  // ---------------------------------------------------------------------------
  // Choosing the plate

  /** The indices of the riftable plates, in order. */
  function RiftableIndices(plates: seq<Plate>): (r: seq<nat>)
    ensures forall i :: i in r <==> 0 <= i < |plates| && IsPlateRiftable(plates[i], MinRiftVertices)
    decreases |plates|
  {
    if plates == [] then []
    else
      var n := |plates| - 1;
      var r := RiftableIndices(plates[..n]);
      assert forall i :: 0 <= i < n ==> plates[..n][i] == plates[i];
      if IsPlateRiftable(plates[n], MinRiftVertices) then r + [n] else r
  }

  /** The loop that collects them. */
  method CollectRiftable(plates: seq<Plate>) returns (r: seq<nat>)
    ensures r == RiftableIndices(plates)
  {
    r := [];
    var i := 0;
    while i < |plates|
      invariant i <= |plates| && r == RiftableIndices(plates[..i])
    {
      assert plates[..i + 1][..i] == plates[..i];
      if IsPlateRiftable(plates[i], MinRiftVertices) {
        r := r + [i];
      }
      i := i + 1;
    }
    assert plates[..i] == plates;
  }

  /**
   * PlateRifting::triggerRifting: with no plate of at least MinRiftVertices
   * vertices nothing happens; otherwise a random riftable plate is split into
   * two or three fragments, or left as it is when the split is refused.
   */
  method TriggerRifting(planet: Planet, m: MathLib)
    returns (ok: bool, ghost plateIndex: nat, ghost k: nat, ghost seeds: seq<Vec3>, ghost cells: seq<nat>)
    requires forall p :: 0 <= p < |planet.plates| ==> PlateIndexed(planet.plates[p], |planet.vertices|)
    modifies planet`plates, planet`verticesToPlates
    ensures !ok ==> planet.plates == old(planet.plates) && planet.verticesToPlates == old(planet.verticesToPlates)
    ensures (forall p :: 0 <= p < |old(planet.plates)| ==> !IsPlateRiftable(old(planet.plates)[p], MinRiftVertices)) ==> !ok
    ensures ok ==> plateIndex < |old(planet.plates)| && IsPlateRiftable(old(planet.plates)[plateIndex], MinRiftVertices)
    ensures ok ==> k == 2 || k == 3
    ensures ok ==> SeedsOf(old(planet.plates)[plateIndex].vertices, planet.vertices, k, seeds, m)
    ensures ok ==> CellsOf(old(planet.plates)[plateIndex].vertices, planet.vertices, planet.neighbors, seeds, cells)
    ensures ok ==> Rifted(old(planet.plates), old(planet.verticesToPlates), planet.plates, planet.verticesToPlates, plateIndex, k,
                          cells, planet.crustData, planet.neighbors, planet.vertices, planet.radius, m)
  {
    ok, plateIndex, k, seeds, cells := false, 0, 0, [], [];
    if |planet.plates| == 0 {
      return;
    }
    var riftable := CollectRiftable(planet.plates);
    if riftable == [] {
      return;
    }
    var j :| 0 <= j < |riftable|;
    assert riftable[j] in riftable;
    var selected := riftable[j];
    assert FragmentCountDraw(2);
    var numFragments :| FragmentCountDraw(numFragments);
    assert FragmentCountDraw(numFragments);
    ok, k, seeds, cells := RiftPlate(planet, selected, numFragments, m);
    plateIndex := selected;
  }
}
