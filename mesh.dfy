/**
 * Triangle meshes: the UV-sphere generator and face normals.
 *
 * The mesh arrays themselves are fields of Planets.Planet (the planet is a mesh);
 * this module holds the index arithmetic and the loops that build the arrays.
 */
module Meshes {
  import opened Geometry

  /** Three vertex indices. */
  datatype Triangle = Triangle(v0: nat, v1: nat, v2: nat)

  /** Every corner of every triangle names one of n vertices. */
  predicate IndexedBy(triangles: seq<Triangle>, n: nat)
  {
    forall t :: 0 <= t < |triangles| ==> triangles[t].v0 < n && triangles[t].v1 < n && triangles[t].v2 < n
  }

  // ---------------------------------------------------------------------------
  // Face normals

  /** The unit normal of a face: the cross product of its two edges from corner 0, normalised. */
  function FaceNormal(vertices: seq<Vec3>, tri: Triangle, m: MathLib): Vec3
    requires tri.v0 < |vertices| && tri.v1 < |vertices| && tri.v2 < |vertices|
  {
    var p0 := vertices[tri.v0];
    Normalize(Cross(Sub(vertices[tri.v1], p0), Sub(vertices[tri.v2], p0)), m)
  }

  /** A face normal is a unit vector, or zero when the face is degenerate. */
  lemma FaceNormalUnit(vertices: seq<Vec3>, tri: Triangle, m: MathLib)
    requires tri.v0 < |vertices| && tri.v1 < |vertices| && tri.v2 < |vertices|
    requires Lawful(m)
    ensures FaceNormal(vertices, tri, m) == Zero || SqLen(FaceNormal(vertices, tri, m)) == 1.0
  {
    var c := Cross(Sub(vertices[tri.v1], vertices[tri.v0]), Sub(vertices[tri.v2], vertices[tri.v0]));
    if c != Zero {
      NormalizeIsUnit(c, m);
    }
  }

  /** Entry u of normals is the face normal of triangle u, and a unit or zero vector under lawful maths. */
  ghost predicate NormalsOf(vertices: seq<Vec3>, triangles: seq<Triangle>, normals: seq<Vec3>, m: MathLib)
    requires IndexedBy(triangles, |vertices|)
  {
    |normals| <= |triangles| &&
    (forall u :: 0 <= u < |normals| ==> normals[u] == FaceNormal(vertices, triangles[u], m)) &&
    (Lawful(m) ==> forall u :: 0 <= u < |normals| ==> normals[u] == Zero || SqLen(normals[u]) == 1.0)
  }

  /**
   * The normals loop shared by the sphere generator and computeTrianglesNormals:
   * one normal per triangle, in triangle order; each is a unit vector, or zero
   * for a degenerate triangle.
   */
  method TriangleNormals(vertices: seq<Vec3>, triangles: seq<Triangle>, m: MathLib) returns (normals: seq<Vec3>)
    requires IndexedBy(triangles, |vertices|)
    ensures |normals| == |triangles|
    ensures forall t :: 0 <= t < |triangles| ==> normals[t] == FaceNormal(vertices, triangles[t], m)
    ensures Lawful(m) ==> forall t :: 0 <= t < |normals| ==> normals[t] == Zero || SqLen(normals[t]) == 1.0
  {
    normals := [];
    var t := 0;
    while t < |triangles|
      invariant t <= |triangles| && |normals| == t
      invariant NormalsOf(vertices, triangles, normals, m)
    {
      var n := FaceNormal(vertices, triangles[t], m);
      if Lawful(m) {
        FaceNormalUnit(vertices, triangles[t], m);
      }
      ghost var n0 := normals;
      normals := normals + [n];
      forall u | 0 <= u <= t
        ensures normals[u] == FaceNormal(vertices, triangles[u], m)
        ensures Lawful(m) ==> normals[u] == Zero || SqLen(normals[u]) == 1.0
      {
        if u < t { assert normals[u] == n0[u]; }
      }
      t := t + 1;
    }
  }

  // ---------------------------------------------------------------------------
  // The UV sphere

  /** The requested resolution raised to at least 3 sectors and 2 stacks. */
  function SphereResolution(sectors: nat, stacks: nat): (r: (nat, nat))
    ensures r.0 >= 3 && r.1 >= 2
    ensures sectors >= 3 ==> r.0 == sectors
    ensures stacks >= 2 ==> r.1 == stacks
  {
    (if sectors < 3 then 3 else sectors, if stacks < 2 then 2 else stacks)
  }

  /** Unit direction of the grid point on stack i and sector j. */
  function SphereDirection(i: nat, j: nat, sectors: nat, stacks: nat, m: MathLib): Vec3
    requires sectors > 0 && stacks > 0
  {
    var phi := Pi * ((i as real) / (stacks as real));
    var theta := 2.0 * Pi * ((j as real) / (sectors as real));
    Vec3(m.sin(phi) * m.cos(theta), m.cos(phi), m.sin(phi) * m.sin(theta))
  }

  function SpherePosition(radius: real, i: nat, j: nat, sectors: nat, stacks: nat, m: MathLib): Vec3
    requires sectors > 0 && stacks > 0
  {
    var phi := Pi * ((i as real) / (stacks as real));
    var theta := 2.0 * Pi * ((j as real) / (sectors as real));
    Vec3(radius * m.sin(phi) * m.cos(theta), radius * m.cos(phi), radius * m.sin(phi) * m.sin(theta))
  }

  /** The vertex normal: the direction divided by its length, or by 1 when that length is 0. */
  function SphereNormal(i: nat, j: nat, sectors: nat, stacks: nat, m: MathLib): Vec3
    requires sectors > 0 && stacks > 0
  {
    var n := SphereDirection(i, j, sectors, stacks, m);
    var len := Length(n, m);
    var l := if len == 0.0 then 1.0 else len;
    Vec3(n.x / l, n.y / l, n.z / l)
  }

  lemma {:induction false} TrigSquares(sp: real, cp: real, st: real, ct: real)
    requires Sq(cp) + Sq(sp) == 1.0 && Sq(ct) + Sq(st) == 1.0
    ensures Sq(sp * ct) + Sq(cp) + Sq(sp * st) == 1.0
  {
    ScaledSquare(ct, sp);
    ScaledSquare(st, sp);
    assert Sq(sp * ct) + Sq(sp * st) == Sq(sp) * (Sq(ct) + Sq(st));
  }

  lemma {:induction false} UnitRoot(l: real)
    requires 0.0 <= l && Sq(l) == 1.0
    ensures l == 1.0
  {
    if l < 1.0 {
      MulMonotoneReal(l, 1.0, l);
      assert false;
    } else if l > 1.0 {
      MulMonotoneReal(1.0, l, l);
      assert false;
    }
  }

  lemma {:induction false} MulMonotoneReal(a: real, b: real, c: real)
    requires a <= b && 0.0 <= c
    ensures a * c <= b * c
  {
    assert b * c - a * c == (b - a) * c;
  }

  lemma {:induction false} MulMonotone(a: nat, b: nat, c: nat)
    requires a <= b
    ensures a * c <= b * c
  {
    assert b * c - a * c == (b - a) * c;
  }

  /**
   * With a lawful library every grid point lies on the sphere: the direction has
   * unit length, the vertex normal is that direction, and the position is the
   * normal scaled by the radius.
   */
  lemma {:induction false} SpherePointOnSphere(radius: real, i: nat, j: nat, sectors: nat, stacks: nat, m: MathLib)
    requires sectors > 0 && stacks > 0 && Lawful(m)
    ensures SqLen(SphereNormal(i, j, sectors, stacks, m)) == 1.0
    ensures SphereNormal(i, j, sectors, stacks, m) == SphereDirection(i, j, sectors, stacks, m)
    ensures SpherePosition(radius, i, j, sectors, stacks, m) == Scale(SphereDirection(i, j, sectors, stacks, m), radius)
  {
    var phi := Pi * ((i as real) / (stacks as real));
    var theta := 2.0 * Pi * ((j as real) / (sectors as real));
    var n := SphereDirection(i, j, sectors, stacks, m);
    TrigLaw(m, phi);
    TrigLaw(m, theta);
    TrigSquares(m.sin(phi), m.cos(phi), m.sin(theta), m.cos(theta));
    assert SqLen(n) == 1.0;
    SqrtLaw(m, 1.0);
    UnitRoot(m.sqrt(1.0));
    assert Length(n, m) == 1.0;
  }

  /** The position of flat index k in the (stacks+1) x (sectors+1) grid: ring k / ring, column k % ring. */
  lemma {:induction false} GridIndex(i: nat, j: nat, ring: nat)
    requires j < ring
    ensures (i * ring + j) / ring == i && (i * ring + j) % ring == j
  {
    var a := i * ring + j;
    var q, r := a / ring, a % ring;
    assert a == q * ring + r && 0 <= r < ring;
    if q > i {
      MulMonotone(i + 1, q, ring);
      assert false;
    } else if q < i {
      MulMonotone(q + 1, i, ring);
      assert false;
    }
  }

  /** Entry k of both lists is the grid point of ring k / ring and column k % ring. */
  predicate GridFilled(vertices: seq<Vec3>, normals: seq<Vec3>, radius: real, sectors: nat, stacks: nat, m: MathLib)
  {
    sectors > 0 && stacks > 0 && |vertices| == |normals| &&
    forall k :: 0 <= k < |vertices| ==>
      && vertices[k] == SpherePosition(radius, k / (sectors + 1), k % (sectors + 1), sectors, stacks, m)
      && normals[k] == SphereNormal(k / (sectors + 1), k % (sectors + 1), sectors, stacks, m)
  }

  /** Appends ring i (its sectors + 1 columns) to grid lists that hold rings 0 .. i - 1. */
  method AppendRing(radius: real, sectors: nat, stacks: nat, m: MathLib, i: nat, vertices0: seq<Vec3>, normals0: seq<Vec3>)
    returns (vertices: seq<Vec3>, normals: seq<Vec3>)
    requires sectors > 0 && stacks > 0 && |vertices0| == i * (sectors + 1)
    requires GridFilled(vertices0, normals0, radius, sectors, stacks, m)
    ensures |vertices| == (i + 1) * (sectors + 1)
    ensures GridFilled(vertices, normals, radius, sectors, stacks, m)
  {
    var ring := sectors + 1;
    vertices, normals := vertices0, normals0;
    var j := 0;
    while j <= sectors
      invariant j <= ring && |vertices| == i * ring + j
      invariant GridFilled(vertices, normals, radius, sectors, stacks, m)
    {
      GridIndex(i, j, ring);
      vertices := vertices + [SpherePosition(radius, i, j, sectors, stacks, m)];
      normals := normals + [SphereNormal(i, j, sectors, stacks, m)];
      j := j + 1;
    }
    assert i * ring + ring == (i + 1) * ring;
  }

  /**
   * The vertex and normal loops of setupSphere: row by row, sector by sector,
   * with the seam column duplicated.
   */
  method SphereVertices(radius: real, sectors: nat, stacks: nat, m: MathLib) returns (vertices: seq<Vec3>, normals: seq<Vec3>)
    requires sectors > 0 && stacks > 0
    ensures |vertices| == |normals| == (stacks + 1) * (sectors + 1)
    ensures forall k :: 0 <= k < |vertices| ==>
      && vertices[k] == SpherePosition(radius, k / (sectors + 1), k % (sectors + 1), sectors, stacks, m)
      && normals[k] == SphereNormal(k / (sectors + 1), k % (sectors + 1), sectors, stacks, m)
  {
    vertices, normals := [], [];
    var i := 0;
    while i <= stacks
      invariant i <= stacks + 1 && |vertices| == i * (sectors + 1)
      invariant GridFilled(vertices, normals, radius, sectors, stacks, m)
    {
      vertices, normals := AppendRing(radius, sectors, stacks, m, i, vertices, normals);
      i := i + 1;
    }
  }

  /**
   * Triangle t of the sphere grid: patch t / 2 sits on stack (t / 2) / sectors and
   * sector (t / 2) % sectors; its even triangle is (first, second, first + 1) and its
   * odd one (first + 1, second, second + 1), second being first's neighbour one ring down.
   */
  function GridTriangle(sectors: nat, t: nat): Triangle
    requires sectors > 0
  {
    var patch := t / 2;
    var first := (patch / sectors) * (sectors + 1) + patch % sectors;
    var second := first + sectors + 1;
    if t % 2 == 0 then Triangle(first, second, first + 1) else Triangle(first + 1, second, second + 1)
  }

  /** Every grid triangle indexes a vertex of the (stacks+1) x (sectors+1) grid. */
  lemma {:induction false} GridTriangleInRange(sectors: nat, stacks: nat, t: nat)
    requires sectors > 0 && t < 2 * stacks * sectors
    ensures var tri := GridTriangle(sectors, t);
      tri.v0 < (stacks + 1) * (sectors + 1) && tri.v1 < (stacks + 1) * (sectors + 1) && tri.v2 < (stacks + 1) * (sectors + 1)
  {
    var ring := sectors + 1;
    var patch := t / 2;
    assert patch < stacks * sectors;
    var i := patch / sectors;
    var j := patch % sectors;
    assert i < stacks;
    assert (i + 1) * ring <= stacks * ring;
    var first := i * ring + j;
    assert first + ring + 1 <= (i + 1) * ring + ring - 1;
    assert (stacks + 1) * ring == stacks * ring + ring;
  }

  /** The triangle loop of setupSphere: two triangles per patch, patches row by row. */
  method SphereTriangles(sectors: nat, stacks: nat) returns (triangles: seq<Triangle>)
    requires sectors > 0
    ensures |triangles| == 2 * stacks * sectors
    ensures forall t :: 0 <= t < |triangles| ==> triangles[t] == GridTriangle(sectors, t)
    ensures IndexedBy(triangles, (stacks + 1) * (sectors + 1))
  {
    var ring := sectors + 1;
    triangles := [];
    var i := 0;
    while i < stacks
      invariant i <= stacks && |triangles| == 2 * (i * sectors)
      invariant forall t :: 0 <= t < |triangles| ==> triangles[t] == GridTriangle(sectors, t)
    {
      var j := 0;
      while j < sectors
        invariant j <= sectors && |triangles| == 2 * (i * sectors + j)
        invariant forall t :: 0 <= t < |triangles| ==> triangles[t] == GridTriangle(sectors, t)
      {
        var first := i * ring + j;
        var second := first + ring;
        GridIndex(i, j, sectors);
        ghost var t := |triangles|;
        assert t / 2 == i * sectors + j && (t + 1) / 2 == i * sectors + j;
        assert GridTriangle(sectors, t) == Triangle(first, second, first + 1);
        assert GridTriangle(sectors, t + 1) == Triangle(first + 1, second, second + 1);
        triangles := triangles + [Triangle(first, second, first + 1), Triangle(first + 1, second, second + 1)];
        j := j + 1;
      }
      assert i * sectors + sectors == (i + 1) * sectors;
      i := i + 1;
    }
    forall t | 0 <= t < |triangles|
      ensures triangles[t].v0 < (stacks + 1) * ring && triangles[t].v1 < (stacks + 1) * ring && triangles[t].v2 < (stacks + 1) * ring
    {
      GridTriangleInRange(sectors, stacks, t);
    }
  }
}
