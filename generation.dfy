/**
 * The bookkeeping of Planet::generatePlates: seed selection, the perturbed
 * spherical Voronoi assignment, the plate lists built from it and the random
 * plate motions.
 *
 * Random draws are nondeterministic choices within the range of the
 * distribution; the coherent noise and acos are parameters.
 */
module PlateGeneration {
  import opened Geometry
  import opened Search
  import opened Plates
  import opened Adjacency
  import opened Terranes
  import opened CrustParameters
  import opened Meshes

  /** The requested plate count, lowered to the vertex count. */
  function ClampedCount(count: nat, n: nat): (c: nat)
    ensures c <= n && c <= count
    ensures c == count || c == n
  {
    if count > n then n else count
  }

  /** Fewer than n distinct values below n leave some value below n unused. */
  lemma {:induction false} Unchosen(s: seq<nat>, n: nat)
    requires |s| < n && Distinct(s) && forall i :: 0 <= i < |s| ==> s[i] < n
    ensures exists x: nat :: x < n && x !in s
  {
    if n - 1 in s {
      var i :| 0 <= i < |s| && s[i] == n - 1;
      var s' := s[..i] + s[i + 1..];
      forall y | y in s'
        ensures y < n - 1
      {
        var j :| 0 <= j < |s'| && s'[j] == y;
        if j < i {
          assert s[j] == y && j < i;
        } else {
          assert s[j + 1] == y && i < j + 1;
        }
      }
      assert Distinct(s') by {
        forall a, b | 0 <= a < b < |s'|
          ensures s'[a] != s'[b]
        {
          var a' := if a < i then a else a + 1;
          var b' := if b < i then b else b + 1;
          assert s'[a] == s[a'] && s'[b] == s[b'] && a' < b';
        }
      }
      assert forall k :: 0 <= k < |s'| ==> s'[k] < n - 1 by {
        forall k | 0 <= k < |s'|
          ensures s'[k] < n - 1
        {
          assert s'[k] in s';
        }
      }
      Unchosen(s', n - 1);
      var x: nat :| x < n - 1 && x !in s';
      assert x !in s;
    }
  }

  /**
   * The seed loop: draw vertex indices until count distinct ones are chosen.
   * Each accepted draw is modelled as a choice among the indices not yet chosen.
   */
  method ChooseSeeds(count: nat, n: nat) returns (seeds: seq<nat>)
    requires count <= n
    ensures |seeds| == count && Distinct(seeds)
    ensures forall i :: 0 <= i < |seeds| ==> seeds[i] < n
  {
    seeds := [];
    while |seeds| < count
      invariant |seeds| <= count && Distinct(seeds)
      invariant forall i :: 0 <= i < |seeds| ==> seeds[i] < n
      decreases count - |seeds|
    {
      Unchosen(seeds, n);
      var s: nat :| s < n && s !in seeds;
      seeds := seeds + [s];
    }
  }

  /**
   * The perturbed angular distance from vertex v to seed k: the angle between
   * their directions plus 0.02 times a noise sample offset by 1000 per plate.
   */
  function SeedDistance(vertices: seq<Vec3>, centroids: seq<Vec3>, v: nat, k: nat,
                        noise: Noise, acos: real -> real, m: MathLib): real
    requires v < |vertices| && k < |centroids|
  {
    var vn := Normalize(vertices[v], m);
    var cn := Normalize(centroids[k], m);
    var angle := acos(ClampReal(Dot(vn, cn), -1.0, 1.0));
    var offset := (k as real) * 1000.0;
    angle + 0.02 * noise(Vec3(vn.x * 2.0 + offset, vn.y * 2.0 + offset, vn.z * 2.0 + offset))
  }

  function SeedDistances(vertices: seq<Vec3>, centroids: seq<Vec3>, v: nat,
                         noise: Noise, acos: real -> real, m: MathLib): (ds: seq<real>)
    requires v < |vertices|
    ensures |ds| == |centroids|
  {
    seq(|centroids|, k requires 0 <= k < |centroids| => SeedDistance(vertices, centroids, v, k, noise, acos, m))
  }

  /**
   * The assignment loop: every vertex goes to the first seed at the smallest
   * perturbed distance. The running best starts at infinity, so the first seed
   * is always taken and the -1 default never survives.
   */
  method AssignToSeeds(vertices: seq<Vec3>, centroids: seq<Vec3>, noise: Noise, acos: real -> real, m: MathLib)
    returns (assign: seq<nat>)
    requires |centroids| > 0
    ensures |assign| == |vertices|
    ensures forall v :: 0 <= v < |vertices| ==> assign[v] < |centroids|
    ensures forall v :: 0 <= v < |vertices| ==> assign[v] == FirstMin(SeedDistances(vertices, centroids, v, noise, acos, m))
  {
    assign := [];
    var v := 0;
    while v < |vertices|
      invariant v <= |vertices| && |assign| == v
      invariant forall u :: 0 <= u < v ==> assign[u] == FirstMin(SeedDistances(vertices, centroids, u, noise, acos, m))
    {
      var k := ArgMin(SeedDistances(vertices, centroids, v, noise, acos, m));
      assign := assign + [k];
      v := v + 1;
    }
  }

  /**
   * The plate-building loop: count cleared plates, then every vertex is appended
   * to the list of its plate and recorded as owned by it.
   */
  method BuildPlates(assign: seq<nat>, count: nat) returns (plates: seq<Plate>)
    requires forall v :: 0 <= v < |assign| ==> assign[v] < count
    ensures |plates| == count
    ensures Partitioned(plates, assign, |assign|)
    ensures forall p :: 0 <= p < count ==> plates[p] == EmptyPlate.(vertices := plates[p].vertices)
    ensures forall p :: 0 <= p < count ==> StrictlySorted(plates[p].vertices)
  {
    plates := seq(count, p => EmptyPlate);
    var v := 0;
    while v < |assign|
      invariant v <= |assign| && |plates| == count
      invariant forall p :: 0 <= p < count ==> plates[p] == EmptyPlate.(vertices := plates[p].vertices)
      invariant forall p :: 0 <= p < count ==> StrictlySorted(plates[p].vertices)
      invariant forall p :: 0 <= p < count ==> forall u :: u in plates[p].vertices ==> u < v && assign[u] == p
      invariant forall u :: 0 <= u < v ==> u in plates[assign[u]].vertices
    {
      var k := assign[v];
      assert forall i :: 0 <= i < |plates[k].vertices| ==> plates[k].vertices[i] < v by {
        forall i | 0 <= i < |plates[k].vertices|
          ensures plates[k].vertices[i] < v
        {
          assert plates[k].vertices[i] in plates[k].vertices;
        }
      }
      plates := plates[k := plates[k].(vertices := plates[k].vertices + [v])];
      v := v + 1;
    }
  }

  /** The axis drawn from z in [-1, 1] and an angle: (rxy cos theta, rxy sin theta, z) with rxy = sqrt(max(0, 1 - z^2)). */
  function RandomAxis(z: real, theta: real, m: MathLib): Vec3
  {
    var rxy := m.sqrt(if 1.0 - z * z > 0.0 then 1.0 - z * z else 0.0);
    Vec3(rxy * m.cos(theta), rxy * m.sin(theta), z)
  }

  lemma {:induction false} UnitAxisTerms(r2: real, c: real, s: real, z2: real)
    requires Sq(c) + Sq(s) == 1.0 && r2 == 1.0 - z2
    ensures Sq(c) * r2 + Sq(s) * r2 + z2 == 1.0
  {
    assert Sq(c) * r2 + Sq(s) * r2 == (Sq(c) + Sq(s)) * r2;
  }

  /** rxy^2 + z^2 = 1, so the drawn axis is a unit vector. */
  lemma AxisIsUnit(z: real, theta: real, m: MathLib)
    requires Lawful(m) && -1.0 <= z <= 1.0
    ensures SqLen(RandomAxis(z, theta, m)) == 1.0
  {
    var t := if 1.0 - z * z > 0.0 then 1.0 - z * z else 0.0;
    assert z * z <= 1.0 by {
      if z >= 0.0 { MulMonotoneAt(z, 1.0); } else { MulMonotoneAt(-z, 1.0); }
    }
    assert t == 1.0 - Sq(z);
    var rxy := m.sqrt(t);
    SqrtLaw(m, t);
    TrigLaw(m, theta);
    ScaledSquare(rxy, m.cos(theta));
    ScaledSquare(rxy, m.sin(theta));
    assert Sq(rxy * m.cos(theta)) == Sq(m.cos(theta)) * t;
    assert Sq(rxy * m.sin(theta)) == Sq(m.sin(theta)) * t;
    UnitAxisTerms(t, m.cos(theta), m.sin(theta), Sq(z));
  }

  lemma {:induction false} MulMonotoneAt(a: real, b: real)
    requires 0.0 <= a <= b
    ensures a * a <= b * b
  {
    assert a * a <= a * b;
  }

  /** A value std::uniform_real_distribution(0.1, 0.9) can return. */
  predicate UniformDraw(x: real)
  {
    0.1 <= x < 0.9
  }

  /**
   * The motion loop: every plate gets a speed drawn from [0.1, 0.9) and an
   * axis from z = 2u - 1 and theta = 2 pi u' for two further draws u, u'.
   */
  method DrawMotions(plates: seq<Plate>, m: MathLib) returns (r: seq<Plate>)
    ensures |r| == |plates|
    ensures forall p :: 0 <= p < |r| ==>
      r[p] == plates[p].(velocity := r[p].velocity, rotationAxis := r[p].rotationAxis)
    ensures forall p :: 0 <= p < |r| ==> 0.1 <= r[p].velocity < 0.9
    ensures Lawful(m) ==> forall p :: 0 <= p < |r| ==> SqLen(r[p].rotationAxis) == 1.0
  {
    r := [];
    var i := 0;
    while i < |plates|
      invariant i <= |plates| && |r| == i
      invariant forall p :: 0 <= p < i ==>
        r[p] == plates[p].(velocity := r[p].velocity, rotationAxis := r[p].rotationAxis)
      invariant forall p :: 0 <= p < i ==> 0.1 <= r[p].velocity < 0.9
      invariant Lawful(m) ==> forall p :: 0 <= p < i ==> SqLen(r[p].rotationAxis) == 1.0
    {
      assert UniformDraw(0.5);
      var velocity: real :| UniformDraw(velocity);
      var u: real :| UniformDraw(u);
      var u': real :| UniformDraw(u');
      assert UniformDraw(velocity) && UniformDraw(u);
      var z := 2.0 * u - 1.0;
      var theta := 2.0 * Pi * u';
      var axis := RandomAxis(z, theta, m);
      if Lawful(m) {
        AxisIsUnit(z, theta, m);
      }
      r := r + [plates[i].(velocity := velocity, rotationAxis := axis)];
      i := i + 1;
    }
  }
}
