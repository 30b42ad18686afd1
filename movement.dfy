/**
 * Plate motion and the detection of tectonic phenomena (src/movement.cpp).
 *
 * Every pair of neighbouring vertices on different plates is an interaction:
 * its convergence is the relative surface velocity of the two plates at the
 * vertex, projected on the direction from one plate centroid to the other. A
 * decision table turns the interaction into a collision, a subduction, a rift
 * or nothing. Plates move by rigid rotation about their axis.
 */
module Movement {
  import opened Options
  import opened Geometry
  import opened Crusts
  import opened Phenomena
  import opened Plates
  import opened Terranes
  import opened Frontiers
  import opened Planets

  /** What analyzePlateInteraction records about one pair of neighbouring vertices. */
  datatype PlateInteraction = PlateInteraction(
    plateA: nat, plateB: nat, vertex: nat, neighbor: nat,
    isOceanicA: bool, isOceanicB: bool, ageA: real, ageB: real,
    direction: Vec3, convergence: real)

  // ---------------------------------------------------------------------------
  // Crust queries

  /** The vertex has a record and it is oceanic; an out-of-range index or a missing record is not. */
  predicate IsOceanicCrust(crust: seq<Option<Crust>>, v: nat)
  {
    v < |crust| && crust[v].Some? && crust[v].value.OceanicCrust?
  }

  /** At most this many oceanic vertices are averaged. */
  const MaxSamples: nat := 50

  /** The ages of the first `limit` oceanic vertices of vs, in list order. */
  function OceanicSamples(crust: seq<Option<Crust>>, vs: seq<nat>, limit: nat): (s: seq<real>)
    ensures |s| <= limit && |s| <= |vs|
    decreases |vs|
  {
    if vs == [] || limit == 0 then []
    else if IsOceanicCrust(crust, vs[0]) then [crust[vs[0]].value.age] + OceanicSamples(crust, vs[1..], limit - 1)
    else OceanicSamples(crust, vs[1..], limit)
  }

  function Sum(s: seq<real>): real
  {
    if s == [] then 0.0 else Sum(s[..|s| - 1]) + s[|s| - 1]
  }

  /** The mean of the samples, or 0 when there is none. */
  function Average(s: seq<real>): real
  {
    if s == [] then 0.0 else Sum(s) / (|s| as real)
  }

  /** The average oceanic age of plate p, or 0 for a plate index out of range. */
  function PlateAverageAge(plates: seq<Plate>, crust: seq<Option<Crust>>, p: nat): real
  {
    if p < |plates| then Average(OceanicSamples(crust, plates[p].vertices, MaxSamples)) else 0.0
  }

  /** Each sample is the age of an oceanic vertex of the list. */
  lemma {:induction false} SamplesAreAges(crust: seq<Option<Crust>>, vs: seq<nat>, limit: nat, x: real)
    requires x in OceanicSamples(crust, vs, limit)
    ensures exists v :: v in vs && IsOceanicCrust(crust, v) && crust[v].value.age == x
    decreases |vs|
  {
    if IsOceanicCrust(crust, vs[0]) && x == crust[vs[0]].value.age {
      assert vs[0] in vs;
    } else {
      SamplesAreAges(crust, vs[1..], if IsOceanicCrust(crust, vs[0]) then limit - 1 else limit, x);
      var v :| v in vs[1..] && IsOceanicCrust(crust, v) && crust[v].value.age == x;
      assert v in vs;
    }
  }

  /** With a positive limit, there are samples exactly when the list holds an oceanic vertex. */
  lemma {:induction false} SamplesExist(crust: seq<Option<Crust>>, vs: seq<nat>, limit: nat)
    requires limit > 0
    ensures OceanicSamples(crust, vs, limit) == [] <==> forall v :: v in vs ==> !IsOceanicCrust(crust, v)
    decreases |vs|
  {
    if vs != [] && !IsOceanicCrust(crust, vs[0]) {
      SamplesExist(crust, vs[1..], limit);
      assert forall v :: v in vs ==> v == vs[0] || v in vs[1..];
    }
  }

  lemma {:induction false} SumBounds(s: seq<real>, lo: real, hi: real)
    requires forall i :: 0 <= i < |s| ==> lo <= s[i] <= hi
    ensures (|s| as real) * lo <= Sum(s) <= (|s| as real) * hi
    decreases |s|
  {
    if s != [] {
      SumBounds(s[..|s| - 1], lo, hi);
      assert ((|s| - 1) as real) * lo + lo == (|s| as real) * lo;
      assert ((|s| - 1) as real) * hi + hi == (|s| as real) * hi;
    }
  }

  lemma {:induction false} AverageBounds(s: seq<real>, lo: real, hi: real)
    requires s != [] && forall i :: 0 <= i < |s| ==> lo <= s[i] <= hi
    ensures lo <= Average(s) <= hi
  {
    SumBounds(s, lo, hi);
    var n := |s| as real;
    DivideBounds(Sum(s), n, lo, hi);
  }

  lemma {:induction false} DivideBounds(t: real, n: real, lo: real, hi: real)
    requires n > 0.0 && n * lo <= t <= n * hi
    ensures lo <= t / n <= hi
  {
    assert t / n * n == t;
  }

  /**
   * When every oceanic vertex of the plate has an age in [lo, hi], so has the
   * average, unless the plate has no oceanic vertex, when it is 0.
   */
  lemma AverageAgeWithin(plates: seq<Plate>, crust: seq<Option<Crust>>, p: nat, lo: real, hi: real)
    requires p < |plates|
    requires forall v :: v in plates[p].vertices && IsOceanicCrust(crust, v) ==> lo <= crust[v].value.age <= hi
    ensures (forall v :: v in plates[p].vertices ==> !IsOceanicCrust(crust, v)) ==> PlateAverageAge(plates, crust, p) == 0.0
    ensures (exists v :: v in plates[p].vertices && IsOceanicCrust(crust, v)) ==> lo <= PlateAverageAge(plates, crust, p) <= hi
  {
    var s := OceanicSamples(crust, plates[p].vertices, MaxSamples);
    SamplesExist(crust, plates[p].vertices, MaxSamples);
    if s != [] {
      forall i | 0 <= i < |s|
        ensures lo <= s[i] <= hi
      {
        SamplesAreAges(crust, plates[p].vertices, MaxSamples, s[i]);
      }
      AverageBounds(s, lo, hi);
    }
  }

  /** The samples of a suffix: the first vertex's age, if oceanic, then the samples of the rest. */
  lemma SamplesStep(crust: seq<Option<Crust>>, vs: seq<nat>, i: nat, limit: nat)
    requires i < |vs| && limit > 0
    ensures OceanicSamples(crust, vs[i..], limit)
      == if IsOceanicCrust(crust, vs[i]) then [crust[vs[i]].value.age] + OceanicSamples(crust, vs[i + 1..], limit - 1)
         else OceanicSamples(crust, vs[i + 1..], limit)
  {
    assert vs[i..][0] == vs[i] && vs[i..][1..] == vs[i + 1..];
  }

  /** The loop's account of the samples survives one more vertex. */
  lemma SamplesInvariantStep(crust: seq<Option<Crust>>, vs: seq<nat>, i: nat, samples: seq<real>, target: seq<real>)
    requires i < |vs| && |samples| < MaxSamples
    requires samples + OceanicSamples(crust, vs[i..], MaxSamples - |samples|) == target
    ensures IsOceanicCrust(crust, vs[i]) ==>
      (samples + [crust[vs[i]].value.age]) + OceanicSamples(crust, vs[i + 1..], MaxSamples - (|samples| + 1)) == target
    ensures !IsOceanicCrust(crust, vs[i]) ==> samples + OceanicSamples(crust, vs[i + 1..], MaxSamples - |samples|) == target
  {
    SamplesStep(crust, vs, i, MaxSamples - |samples|);
    if IsOceanicCrust(crust, vs[i]) {
      var age := crust[vs[i]].value.age;
      var rest := OceanicSamples(crust, vs[i + 1..], MaxSamples - (|samples| + 1));
      assert (samples + [age]) + rest == samples + ([age] + rest);
    }
  }

  lemma SumAppend(s: seq<real>, x: real)
    ensures Sum(s + [x]) == Sum(s) + x
  {
    assert (s + [x])[..|s|] == s;
  }

  /**
   * The averaging loop: skip vertices without a record or with continental
   * crust, add up oceanic ages and stop after MaxSamples of them.
   */
  method ComputePlateAverageOceanicAge(plates: seq<Plate>, crust: seq<Option<Crust>>, p: nat) returns (avg: real)
    ensures avg == PlateAverageAge(plates, crust, p)
  {
    if p >= |plates| {
      return 0.0;
    }
    var sum, count := SumOceanicAges(crust, plates[p].vertices);
    avg := if count > 0 then sum / (count as real) else 0.0;
  }

  /** The loop of computePlateAverageOceanicAge: the sum and number of the samples. */
  method SumOceanicAges(crust: seq<Option<Crust>>, vs: seq<nat>) returns (sum: real, count: nat)
    ensures sum == Sum(OceanicSamples(crust, vs, MaxSamples)) && count == |OceanicSamples(crust, vs, MaxSamples)|
  {
    ghost var target := OceanicSamples(crust, vs, MaxSamples);
    ghost var samples: seq<real> := [];
    sum, count := 0.0, 0;
    var i := 0;
    while i < |vs|
      invariant i <= |vs| && count == |samples| < MaxSamples && sum == Sum(samples)
      invariant samples + OceanicSamples(crust, vs[i..], MaxSamples - count) == target
    {
      SamplesInvariantStep(crust, vs, i, samples, target);
      if IsOceanicCrust(crust, vs[i]) {
        var age := crust[vs[i]].value.age;
        SumAppend(samples, age);
        samples := samples + [age];
        sum := sum + age;
        count := count + 1;
        i := i + 1;
        if count >= MaxSamples {
          break;
        }
      } else {
        i := i + 1;
      }
    }
    if i == |vs| {
      assert vs[i..] == [];
    }
    assert OceanicSamples(crust, vs[i..], MaxSamples - count) == [];
    assert samples == target;
  }

  // ---------------------------------------------------------------------------
  // Centroids and velocities

  /** The positions of the listed vertices that are in range of the vertex array. */
  ghost function InRangePositions(vs: seq<nat>, vertices: seq<Vec3>): set<nat>
  {
    set i: nat | i < |vs| && vs[i] < |vertices|
  }

  /** Dropping the last entry drops its position, if it was in range, and no other. */
  lemma {:induction false} InRangePositionsStep(vs: seq<nat>, vertices: seq<Vec3>)
    requires vs != []
    ensures var n := |vs| - 1;
      InRangePositions(vs, vertices) ==
        InRangePositions(vs[..n], vertices) + (if vs[n] < |vertices| then {n} else {})
  {
    var n := |vs| - 1;
    forall i: nat | i < n
      ensures vs[..n][i] == vs[i]
    {
    }
  }

  /** How many listed vertices are in range of the vertex array: the number of such entries. */
  function InRangeCount(vs: seq<nat>, vertices: seq<Vec3>): (c: nat)
    ensures c == |InRangePositions(vs, vertices)|
    ensures c <= |vs|
  {
    if vs == [] then 0
    else
      InRangePositionsStep(vs, vertices);
      InRangeCount(vs[..|vs| - 1], vertices) + (if vs[|vs| - 1] < |vertices| then 1 else 0)
  }

  /** The mean of the plate's in-range vertices, normalised and scaled to the radius; the origin for none. */
  function PlateCentroid(plate: Plate, vertices: seq<Vec3>, radius: real, m: MathLib): Vec3
  {
    var c := InRangeCount(plate.vertices, vertices);
    if c > 0 then Scale(Normalize(Scale(SumIn(plate.vertices, vertices), 1.0 / (c as real)), m), radius)
    else Zero
  }

  /** A centroid whose mean is not the origin lies on the sphere; a plate with no in-range vertex has the origin. */
  lemma PlateCentroidOnSphere(plate: Plate, vertices: seq<Vec3>, radius: real, m: MathLib)
    requires Lawful(m)
    ensures InRangeCount(plate.vertices, vertices) == 0 ==> PlateCentroid(plate, vertices, radius, m) == Zero
    ensures var c := InRangeCount(plate.vertices, vertices);
      c > 0 && Scale(SumIn(plate.vertices, vertices), 1.0 / (c as real)) != Zero ==>
        SqLen(PlateCentroid(plate, vertices, radius, m)) == Sq(radius)
  {
    var c := InRangeCount(plate.vertices, vertices);
    if c > 0 {
      var mean := Scale(SumIn(plate.vertices, vertices), 1.0 / (c as real));
      if mean != Zero {
        NormalizeIsUnit(mean, m);
        SqLenScale(Normalize(mean, m), radius);
      }
    }
  }

  /** The centroid of every plate, in plate order. */
  function Centroids(plates: seq<Plate>, vertices: seq<Vec3>, radius: real, m: MathLib): (cs: seq<Vec3>)
    ensures |cs| == |plates|
  {
    seq(|plates|, p requires 0 <= p < |plates| => PlateCentroid(plates[p], vertices, radius, m))
  }

  /** The centroid loop: sum and count the in-range vertices of every plate. */
  method ComputePlateCentroids(plates: seq<Plate>, vertices: seq<Vec3>, radius: real, m: MathLib)
    returns (centroids: seq<Vec3>)
    ensures |centroids| == |plates|
    ensures forall p :: 0 <= p < |plates| ==> centroids[p] == PlateCentroid(plates[p], vertices, radius, m)
    ensures centroids == Centroids(plates, vertices, radius, m)
  {
    centroids := [];
    var p := 0;
    while p < |plates|
      invariant p <= |plates| && |centroids| == p
      invariant forall q :: 0 <= q < p ==> centroids[q] == PlateCentroid(plates[q], vertices, radius, m)
    {
      var vs := plates[p].vertices;
      var sum := Zero;
      var count: nat := 0;
      var j := 0;
      while j < |vs|
        invariant j <= |vs|
        invariant sum == SumIn(vs[..j], vertices) && count == InRangeCount(vs[..j], vertices)
      {
        assert vs[..j + 1][..j] == vs[..j];
        if vs[j] < |vertices| {
          sum := Add(sum, vertices[vs[j]]);
          count := count + 1;
        }
        j := j + 1;
      }
      assert vs[..j] == vs;
      var c := if count > 0 then Scale(Normalize(Scale(sum, 1.0 / (count as real)), m), radius) else Zero;
      centroids := centroids + [c];
      p := p + 1;
    }
  }

  /** The surface velocity of a point carried by the plate: (unit axis x speed) x position. */
  function PlateVelocity(plate: Plate, position: Vec3, m: MathLib): (v: Vec3)
    ensures Dot(position, v) == 0.0
  {
    var omega := Scale(Normalize(plate.rotationAxis, m), plate.velocity);
    CrossOrthogonal(omega, position);
    Cross(omega, position)
  }

  // ---------------------------------------------------------------------------
  // Interactions and their classification

  /** The unit direction from centroid a to centroid b, or the origin when they are within 1e-8. */
  function Direction(a: Vec3, b: Vec3, m: MathLib): (d: Vec3)
    ensures Lawful(m) ==> d == Zero || SqLen(d) == 1.0
  {
    var diff := Sub(b, a);
    var len := Length(diff, m);
    if len > 0.00000001 then
      DirectionIsUnit(diff, m);
      Scale(diff, 1.0 / len)
    else Zero
  }

  lemma DirectionIsUnit(diff: Vec3, m: MathLib)
    requires Length(diff, m) > 0.00000001
    ensures Lawful(m) ==> SqLen(Scale(diff, 1.0 / Length(diff, m))) == 1.0
  {
    if Lawful(m) {
      LengthZero(diff, m);
      NormalizeIsUnit(diff, m);
    }
  }

  /** What analyzePlateInteraction indexes without checking. */
  predicate InteractionInputs(plates: seq<Plate>, vertices: seq<Vec3>, centroids: seq<Vec3>, a: nat, b: nat, v: nat)
  {
    a < |plates| && b < |plates| && a < |centroids| && b < |centroids| && v < |vertices|
  }

  /**
   * The interaction of plates a and b at vertex v with neighbour nb: crust
   * kinds from v and nb, average ages for the oceanic sides, the centroid
   * direction, and the relative velocity projected on it.
   */
  function AnalyzeInteraction(plates: seq<Plate>, crust: seq<Option<Crust>>, vertices: seq<Vec3>,
                              centroids: seq<Vec3>, a: nat, b: nat, v: nat, nb: nat, m: MathLib): (i: PlateInteraction)
    requires InteractionInputs(plates, vertices, centroids, a, b, v)
    ensures i.plateA == a && i.plateB == b && i.vertex == v && i.neighbor == nb
    ensures i.isOceanicA == IsOceanicCrust(crust, v) && i.isOceanicB == IsOceanicCrust(crust, nb)
    ensures !i.isOceanicA ==> i.ageA == 0.0
    ensures !i.isOceanicB ==> i.ageB == 0.0
    ensures Lawful(m) ==> i.direction == Zero || SqLen(i.direction) == 1.0
  {
    var oa := IsOceanicCrust(crust, v);
    var ob := IsOceanicCrust(crust, nb);
    PlateInteraction(a, b, v, nb, oa, ob,
      if oa then PlateAverageAge(plates, crust, a) else 0.0,
      if ob then PlateAverageAge(plates, crust, b) else 0.0,
      Direction(centroids[a], centroids[b], m), Convergence(plates, vertices, centroids, a, b, v, m))
  }

  /** The relative velocity of plate a with respect to plate b at vertex v, along the centroid direction. */
  function Convergence(plates: seq<Plate>, vertices: seq<Vec3>, centroids: seq<Vec3>, a: nat, b: nat, v: nat, m: MathLib): real
    requires InteractionInputs(plates, vertices, centroids, a, b, v)
  {
    var position := vertices[v];
    Dot(Sub(PlateVelocity(plates[a], position, m), PlateVelocity(plates[b], position, m)),
        Direction(centroids[a], centroids[b], m))
  }

  lemma SqNeg(t: real)
    ensures Sq(-t) == Sq(t)
  {
  }

  /** The centroid direction flips with the order of the two centroids. */
  lemma SqLenNeg(d: Vec3)
    ensures SqLen(Neg(d)) == SqLen(d)
  {
    SqNeg(d.x);
    SqNeg(d.y);
    SqNeg(d.z);
  }

  lemma ScaleNeg(d: Vec3, k: real)
    ensures Scale(Neg(d), k) == Neg(Scale(d, k))
  {
    assert (-d.x) * k == -(d.x * k);
    assert (-d.y) * k == -(d.y * k);
    assert (-d.z) * k == -(d.z * k);
  }

  lemma DirectionFlips(a: Vec3, b: Vec3, m: MathLib)
    ensures Direction(b, a, m) == Neg(Direction(a, b, m))
  {
    var d := Sub(b, a);
    assert Sub(a, b) == Neg(d);
    SqLenNeg(d);
    var len := Length(d, m);
    assert Length(Sub(a, b), m) == len;
    if len > 0.00000001 {
      ScaleNeg(d, 1.0 / len);
      assert Direction(b, a, m) == Scale(Neg(d), 1.0 / len);
      assert Direction(a, b, m) == Scale(d, 1.0 / len);
    } else {
      assert Direction(b, a, m) == Zero;
      assert Direction(a, b, m) == Zero;
    }
  }

  lemma DotNegNeg(x: Vec3, y: Vec3)
    ensures Dot(Neg(x), Neg(y)) == Dot(x, y)
  {
    assert (-x.x) * (-y.x) == x.x * y.x;
    assert (-x.y) * (-y.y) == x.y * y.y;
    assert (-x.z) * (-y.z) == x.z * y.z;
  }

  /**
   * Swapping the two plates at the same vertex leaves the convergence as it
   * is: both the direction and the relative velocity change sign.
   */
  lemma ConvergenceSwapInvariant(plates: seq<Plate>, vertices: seq<Vec3>, centroids: seq<Vec3>,
                                 a: nat, b: nat, v: nat, m: MathLib)
    requires InteractionInputs(plates, vertices, centroids, a, b, v)
    ensures Convergence(plates, vertices, centroids, b, a, v, m) == Convergence(plates, vertices, centroids, a, b, v, m)
  {
    var position := vertices[v];
    var va := PlateVelocity(plates[a], position, m);
    var vb := PlateVelocity(plates[b], position, m);
    DirectionFlips(centroids[a], centroids[b], m);
    SwappedDot(va, vb, Direction(centroids[a], centroids[b], m), Direction(centroids[b], centroids[a], m));
  }

  lemma SwappedDot(va: Vec3, vb: Vec3, d: Vec3, d': Vec3)
    requires d' == Neg(d)
    ensures Dot(Sub(vb, va), d') == Dot(Sub(va, vb), d)
  {
    assert Sub(vb, va) == Neg(Sub(va, vb));
    DotNegNeg(Sub(va, vb), d);
  }

  /** The same, for the interaction records built at one vertex with the plates in either order. */
  lemma InteractionSwapInvariant(plates: seq<Plate>, crust: seq<Option<Crust>>, vertices: seq<Vec3>,
                                 centroids: seq<Vec3>, a: nat, b: nat, v: nat, nb: nat, m: MathLib)
    requires InteractionInputs(plates, vertices, centroids, a, b, v)
    ensures AnalyzeInteraction(plates, crust, vertices, centroids, b, a, v, nb, m).convergence
         == AnalyzeInteraction(plates, crust, vertices, centroids, a, b, v, nb, m).convergence
  {
    ConvergenceSwapInvariant(plates, vertices, centroids, a, b, v, m);
  }

  /**
   * A converging interaction: two continents collide; two oceans subduct with
   * the strictly older plate under (plate B on a tie); otherwise the oceanic
   * side goes under the continental one.
   */
  function CreateConvergence(i: PlateInteraction): (r: Phenomenon)
    ensures r.plateA == i.plateA && r.plateB == i.plateB && r.vertex == i.vertex
    ensures r.ContinentalCollision? <==> !i.isOceanicA && !i.isOceanicB
    ensures r.ContinentalCollision? ==> r.magnitude == i.convergence
    ensures !r.Rifting?
    ensures r.Subduction? ==>
      && r.convergence == i.convergence
      && ((r.under == i.plateA && r.over == i.plateB) || (r.under == i.plateB && r.over == i.plateA))
      && (r.kind == OceanicOceanic <==> i.isOceanicA && i.isOceanicB)
      && r.kind != ContinentalContinental
    ensures r.Subduction? && i.isOceanicA && i.isOceanicB && i.plateA != i.plateB ==>
      (r.under == i.plateA <==> i.ageA > i.ageB)
    ensures r.Subduction? && i.isOceanicA != i.isOceanicB && i.plateA != i.plateB ==>
      (r.under == i.plateA <==> i.isOceanicA)
  {
    if !i.isOceanicA && !i.isOceanicB then
      ContinentalCollision(i.plateA, i.plateB, i.vertex, i.convergence, "continental-continental collision")
    else if i.isOceanicA && i.isOceanicB then
      var older := i.ageA > i.ageB;
      Phenomenon.Subduction(i.plateA, i.plateB, i.vertex,
        if older then i.plateA else i.plateB, if older then i.plateB else i.plateA,
        i.convergence, OceanicOceanic, "oceanic-oceanic: older plate subducts")
    else
      Phenomenon.Subduction(i.plateA, i.plateB, i.vertex,
        if i.isOceanicA then i.plateA else i.plateB, if i.isOceanicA then i.plateB else i.plateA,
        i.convergence, OceanicContinental, "oceanic under continental")
  }

  /** Between two different plates, the subducting and the overriding plate differ. */
  lemma SubductionPlatesDiffer(i: PlateInteraction)
    requires i.plateA != i.plateB && CreateConvergence(i).Subduction?
    ensures CreateConvergence(i).under != CreateConvergence(i).over
  {
  }

  /** A diverging interaction: a rift whose divergence is the size of the convergence. */
  function CreateDivergence(i: PlateInteraction): (r: Phenomenon)
    ensures r.Rifting? && r.plateA == i.plateA && r.plateB == i.plateB && r.vertex == i.vertex
    ensures r.divergence >= 0.0 && (r.divergence == i.convergence || r.divergence == -i.convergence)
  {
    var reason :=
      if i.isOceanicA && i.isOceanicB then "oceanic-oceanic rifting: mid-ocean ridge"
      else if !i.isOceanicA && !i.isOceanicB then "continental-continental rifting: continental rift zone"
      else "mixed rifting zone";
    Phenomenon.Rifting(i.plateA, i.plateB, i.vertex, Abs(i.convergence), reason)
  }

  /**
   * Convergence above the threshold gives a collision or a subduction,
   * convergence below minus the threshold a rift, anything else nothing.
   */
  function CreatePhenomenon(i: PlateInteraction, threshold: real): (r: Option<Phenomenon>)
    ensures r.Some? && !r.value.Rifting? <==> i.convergence > threshold
    ensures r.Some? && r.value.Rifting? <==> !(i.convergence > threshold) && i.convergence < -threshold
    ensures r.Some? ==> Base(r.value) == (i.plateA, i.plateB, i.vertex)
  {
    if i.convergence > threshold then Some(CreateConvergence(i))
    else if i.convergence < -threshold then Some(CreateDivergence(i))
    else None
  }

  // ---------------------------------------------------------------------------
  // Detection

  /** What detectPhenomena reads: the planet's arrays, the plate centroids, the threshold and the library. */
  datatype Scene = Scene(plates: seq<Plate>, crust: seq<Option<Crust>>, vertices: seq<Vec3>,
                         neighbors: seq<seq<nat>>, owner: seq<nat>, centroids: seq<Vec3>,
                         threshold: real, m: MathLib)

  /** What detectPhenomena indexes without checking. */
  predicate DetectionInputs(plates: seq<Plate>, vertices: seq<Vec3>, neighbors: seq<seq<nat>>, owner: seq<nat>)
  {
    && |owner| >= |vertices| && |neighbors| >= |vertices|
    && (forall v :: 0 <= v < |vertices| ==> forall j :: 0 <= j < |neighbors[v]| ==> neighbors[v][j] < |owner|)
    && (forall i :: 0 <= i < |owner| ==> owner[i] < |plates|)
  }

  predicate Ready(sc: Scene)
  {
    DetectionInputs(sc.plates, sc.vertices, sc.neighbors, sc.owner) && |sc.centroids| == |sc.plates|
  }

  /** A (plateA, plateB, vertex) triple already analysed. */
  type Triple = (nat, nat, nat)

  /** The classification of the interaction of vertex v with its j-th neighbour. */
  function PhenomenonAt(sc: Scene, v: nat, j: nat): Option<Phenomenon>
    requires Ready(sc) && v < |sc.vertices| && j < |sc.neighbors[v]|
  {
    var nb := sc.neighbors[v][j];
    CreatePhenomenon(AnalyzeInteraction(sc.plates, sc.crust, sc.vertices, sc.centroids,
                                        sc.owner[v], sc.owner[nb], v, nb, sc.m), sc.threshold)
  }

  /** The j-th neighbour of v is on another plate, and no earlier neighbour of v is on that plate. */
  predicate FirstOfItsPlate(sc: Scene, v: nat, j: nat)
    requires Ready(sc) && v < |sc.vertices| && j < |sc.neighbors[v]|
  {
    var nbs := sc.neighbors[v];
    && sc.owner[nbs[j]] != sc.owner[v]
    && forall k :: 0 <= k < j ==> sc.owner[nbs[k]] != sc.owner[nbs[j]]
  }

  /** The phenomenon is the classification of some neighbour pair on two different plates. */
  ghost predicate Detected(sc: Scene, ph: Phenomenon)
    requires Ready(sc)
  {
    && ph.vertex < |sc.vertices| && ph.plateA == sc.owner[ph.vertex] && ph.plateA != ph.plateB
    && exists j :: 0 <= j < |sc.neighbors[ph.vertex]| && sc.owner[sc.neighbors[ph.vertex][j]] == ph.plateB
         && PhenomenonAt(sc, ph.vertex, j) == Some(ph)
  }

  /** Pair (u, k) comes before pair (v, j) in the loop order. */
  predicate Before(u: nat, k: nat, v: nat, j: nat)
  {
    u < v || (u == v && k < j)
  }

  ghost predicate AllDetected(sc: Scene, ps: seq<Phenomenon>)
    requires Ready(sc)
  {
    forall i :: 0 <= i < |ps| ==> Detected(sc, ps[i])
  }

  predicate DistinctBases(ps: seq<Phenomenon>)
  {
    forall i, k :: 0 <= i < k < |ps| ==> Base(ps[i]) != Base(ps[k])
  }

  predicate Cached(ps: seq<Phenomenon>, cache: set<Triple>)
  {
    forall i :: 0 <= i < |ps| ==> Base(ps[i]) in cache
  }

  /** Every cached triple is at an earlier vertex, or at v with the plate of a neighbour before j. */
  predicate CacheBefore(sc: Scene, cache: set<Triple>, v: nat, j: nat)
    requires Ready(sc)
  {
    forall t :: t in cache ==>
      (t.2 < v || (t.2 == v && v < |sc.vertices| &&
                   exists k :: 0 <= k < j && k < |sc.neighbors[v]| && sc.owner[sc.neighbors[v][k]] == t.1))
  }

  /** Every pair visited before (v, j) that is first of its plate has its phenomenon in ps. */
  ghost predicate CompleteBefore(sc: Scene, ps: seq<Phenomenon>, v: nat, j: nat)
    requires Ready(sc)
  {
    forall u, k :: 0 <= u < |sc.vertices| && 0 <= k < |sc.neighbors[u]| && Before(u, k, v, j) ==>
      (FirstOfItsPlate(sc, u, k) && PhenomenonAt(sc, u, k).Some? ==> PhenomenonAt(sc, u, k).value in ps)
  }

  /** What the detection loop knows before it visits neighbour j of vertex v. */
  ghost predicate DetectionLoop(sc: Scene, ps: seq<Phenomenon>, cache: set<Triple>, v: nat, j: nat)
    requires Ready(sc)
  {
    AllDetected(sc, ps) && DistinctBases(ps) && Cached(ps, cache) && CacheBefore(sc, cache, v, j) && CompleteBefore(sc, ps, v, j)
  }

  /** A neighbour on the same plate, or on a plate already met at this vertex, is skipped. */
  lemma DetectionSkip(sc: Scene, ps: seq<Phenomenon>, cache: set<Triple>, v: nat, j: nat)
    requires Ready(sc) && v < |sc.vertices| && j < |sc.neighbors[v]|
    requires DetectionLoop(sc, ps, cache, v, j)
    requires var b := sc.owner[sc.neighbors[v][j]];
      b == sc.owner[v] || (sc.owner[v], b, v) in cache
    ensures DetectionLoop(sc, ps, cache, v, j + 1)
  {
    var b := sc.owner[sc.neighbors[v][j]];
    if b != sc.owner[v] {
      var t := (sc.owner[v], b, v);
      assert t in cache;
      var k :| 0 <= k < j && k < |sc.neighbors[v]| && sc.owner[sc.neighbors[v][k]] == t.1;
      assert !FirstOfItsPlate(sc, v, j);
    }
    CacheGrows(sc, cache, v, j);
  }

  lemma CacheGrows(sc: Scene, cache: set<Triple>, v: nat, j: nat)
    requires Ready(sc) && CacheBefore(sc, cache, v, j)
    ensures CacheBefore(sc, cache, v, j + 1)
  {
  }

  /** The first neighbour met on a new plate is classified and its phenomenon, if any, kept. */
  lemma DetectionAdd(sc: Scene, ps: seq<Phenomenon>, cache: set<Triple>, v: nat, j: nat)
    requires Ready(sc) && v < |sc.vertices| && j < |sc.neighbors[v]|
    requires DetectionLoop(sc, ps, cache, v, j)
    requires var b := sc.owner[sc.neighbors[v][j]];
      b != sc.owner[v] && (sc.owner[v], b, v) !in cache
    ensures var ph := PhenomenonAt(sc, v, j);
      DetectionLoop(sc, if ph.Some? then ps + [ph.value] else ps,
                    cache + {(sc.owner[v], sc.owner[sc.neighbors[v][j]], v)}, v, j + 1)
  {
    AddDetected(sc, ps, v, j);
    AddDistinct(sc, ps, cache, v, j);
    AddCacheBefore(sc, cache, v, j);
    AddComplete(sc, ps, v, j);
  }

  lemma AddDetected(sc: Scene, ps: seq<Phenomenon>, v: nat, j: nat)
    requires Ready(sc) && v < |sc.vertices| && j < |sc.neighbors[v]|
    requires AllDetected(sc, ps) && sc.owner[sc.neighbors[v][j]] != sc.owner[v]
    ensures var ph := PhenomenonAt(sc, v, j);
      AllDetected(sc, if ph.Some? then ps + [ph.value] else ps)
  {
    var ph := PhenomenonAt(sc, v, j);
    if ph.Some? {
      assert Base(ph.value) == (sc.owner[v], sc.owner[sc.neighbors[v][j]], v);
      assert Detected(sc, ph.value);
      assert forall i :: 0 <= i < |ps| ==> (ps + [ph.value])[i] == ps[i];
    }
  }

  lemma AddDistinct(sc: Scene, ps: seq<Phenomenon>, cache: set<Triple>, v: nat, j: nat)
    requires Ready(sc) && v < |sc.vertices| && j < |sc.neighbors[v]|
    requires DistinctBases(ps) && Cached(ps, cache)
    requires (sc.owner[v], sc.owner[sc.neighbors[v][j]], v) !in cache
    ensures var ph := PhenomenonAt(sc, v, j);
      var ps' := if ph.Some? then ps + [ph.value] else ps;
      DistinctBases(ps') && Cached(ps', cache + {(sc.owner[v], sc.owner[sc.neighbors[v][j]], v)})
  {
    var ph := PhenomenonAt(sc, v, j);
    if ph.Some? {
      var ps' := ps + [ph.value];
      assert Base(ph.value) == (sc.owner[v], sc.owner[sc.neighbors[v][j]], v);
      forall i, k | 0 <= i < k < |ps'|
        ensures Base(ps'[i]) != Base(ps'[k])
      {
        if k == |ps| {
          assert Base(ps'[i]) in cache;
        }
      }
    }
  }

  lemma AddCacheBefore(sc: Scene, cache: set<Triple>, v: nat, j: nat)
    requires Ready(sc) && v < |sc.vertices| && j < |sc.neighbors[v]|
    requires CacheBefore(sc, cache, v, j)
    ensures CacheBefore(sc, cache + {(sc.owner[v], sc.owner[sc.neighbors[v][j]], v)}, v, j + 1)
  {
    var t := (sc.owner[v], sc.owner[sc.neighbors[v][j]], v);
    forall u | u in cache + {t}
      ensures u.2 < v || (u.2 == v && v < |sc.vertices| &&
                          exists k :: 0 <= k < j + 1 && k < |sc.neighbors[v]| && sc.owner[sc.neighbors[v][k]] == u.1)
    {
      if u == t {
        assert sc.owner[sc.neighbors[v][j]] == u.1;
      }
    }
  }

  lemma AddComplete(sc: Scene, ps: seq<Phenomenon>, v: nat, j: nat)
    requires Ready(sc) && v < |sc.vertices| && j < |sc.neighbors[v]|
    requires CompleteBefore(sc, ps, v, j)
    ensures var ph := PhenomenonAt(sc, v, j);
      CompleteBefore(sc, if ph.Some? then ps + [ph.value] else ps, v, j + 1)
  {
  }

  /** Having visited every neighbour of v, the loop moves on to vertex v + 1. */
  lemma DetectionNext(sc: Scene, ps: seq<Phenomenon>, cache: set<Triple>, v: nat)
    requires Ready(sc) && v < |sc.vertices|
    requires DetectionLoop(sc, ps, cache, v, |sc.neighbors[v]|)
    ensures DetectionLoop(sc, ps, cache, v + 1, 0)
  {
  }

  /**
   * The detection loop: for every vertex and every neighbour on another plate,
   * the first time the triple (own plate, other plate, vertex) is met its
   * interaction is classified and any phenomenon is kept. Nothing is found
   * without plates or vertices.
   */
  method DetectPhenomena(plates: seq<Plate>, crust: seq<Option<Crust>>, vertices: seq<Vec3>, neighbors: seq<seq<nat>>,
                         owner: seq<nat>, radius: real, threshold: real, m: MathLib)
    returns (ps: seq<Phenomenon>)
    requires DetectionInputs(plates, vertices, neighbors, owner)
    ensures |plates| == 0 || |vertices| == 0 ==> ps == []
    ensures var sc := Scene(plates, crust, vertices, neighbors, owner, Centroids(plates, vertices, radius, m), threshold, m);
      && (forall i :: 0 <= i < |ps| ==> Detected(sc, ps[i]))
      && (forall i, k :: 0 <= i < k < |ps| ==> Base(ps[i]) != Base(ps[k]))
      && (forall v, j :: 0 <= v < |vertices| && 0 <= j < |neighbors[v]| ==>
            (FirstOfItsPlate(sc, v, j) && PhenomenonAt(sc, v, j).Some? ==> PhenomenonAt(sc, v, j).value in ps))
  {
    ps := [];
    if |plates| == 0 || |vertices| == 0 {
      return;
    }
    var centroids := ComputePlateCentroids(plates, vertices, radius, m);
    ghost var sc := Scene(plates, crust, vertices, neighbors, owner, centroids, threshold, m);
    var cache: set<Triple> := {};
    var v := 0;
    while v < |vertices|
      invariant v <= |vertices| && DetectionLoop(sc, ps, cache, v, 0)
    {
      ps, cache := DetectAtVertex(plates, crust, vertices, neighbors, owner, centroids, threshold, m, ps, cache, v);
      v := v + 1;
    }
    DetectionDone(sc, ps, cache);
  }

  /** The neighbour loop of one vertex of the detection loop. */
  method DetectAtVertex(plates: seq<Plate>, crust: seq<Option<Crust>>, vertices: seq<Vec3>, neighbors: seq<seq<nat>>,
                        owner: seq<nat>, centroids: seq<Vec3>, threshold: real, m: MathLib,
                        ps: seq<Phenomenon>, cache: set<Triple>, v: nat)
    returns (ps': seq<Phenomenon>, cache': set<Triple>)
    requires Ready(Scene(plates, crust, vertices, neighbors, owner, centroids, threshold, m)) && v < |vertices|
    requires DetectionLoop(Scene(plates, crust, vertices, neighbors, owner, centroids, threshold, m), ps, cache, v, 0)
    ensures DetectionLoop(Scene(plates, crust, vertices, neighbors, owner, centroids, threshold, m), ps', cache', v + 1, 0)
  {
    ghost var sc := Scene(plates, crust, vertices, neighbors, owner, centroids, threshold, m);
    ps', cache' := ps, cache;
    var nbs := neighbors[v];
    var a := owner[v];
    var j := 0;
    while j < |nbs|
      invariant j <= |nbs| && DetectionLoop(sc, ps', cache', v, j)
    {
      var b := owner[nbs[j]];
      if b != a && (a, b, v) !in cache' {
        DetectionAdd(sc, ps', cache', v, j);
        cache' := cache' + {(a, b, v)};
        var interaction := AnalyzeInteraction(plates, crust, vertices, centroids, a, b, v, nbs[j], m);
        var phenomenon := CreatePhenomenon(interaction, threshold);
        if phenomenon.Some? {
          ps' := ps' + [phenomenon.value];
        }
      } else {
        DetectionSkip(sc, ps', cache', v, j);
      }
      j := j + 1;
    }
    DetectionNext(sc, ps', cache', v);
  }

  /** When the loop has visited every vertex, every first meeting's phenomenon is kept, once. */
  lemma DetectionDone(sc: Scene, ps: seq<Phenomenon>, cache: set<Triple>)
    requires Ready(sc) && DetectionLoop(sc, ps, cache, |sc.vertices|, 0)
    ensures forall i :: 0 <= i < |ps| ==> Detected(sc, ps[i])
    ensures forall i, k :: 0 <= i < k < |ps| ==> Base(ps[i]) != Base(ps[k])
    ensures forall v, j :: 0 <= v < |sc.vertices| && 0 <= j < |sc.neighbors[v]| ==>
      (FirstOfItsPlate(sc, v, j) && PhenomenonAt(sc, v, j).Some? ==> PhenomenonAt(sc, v, j).value in ps)
  {
  }

  // ---------------------------------------------------------------------------
  // Rigid plate rotation

  /** Movement::movementAttenuation: the angle is speed x time step x this factor. */
  const MovementAttenuation: real := 0.0001

  /** The listed vertices rotated one after the other (a vertex listed twice turns twice). */
  function RotateListed(vertices: seq<Vec3>, vs: seq<nat>, k: Vec3, c: real, s: real): (r: seq<Vec3>)
    requires AllIn(vs, |vertices|)
    ensures |r| == |vertices|
    decreases |vs|
  {
    if vs == [] then vertices
    else
      var w := RotateListed(vertices, vs[..|vs| - 1], k, c, s);
      var x := vs[|vs| - 1];
      w[x := Rodrigues(w[x], k, c, s)]
  }

  /** The angle a plate turns in one step. */
  function RotationAngle(plate: Plate, dt: real): real
  {
    plate.velocity * dt * MovementAttenuation
  }

  /** The vertex array after movePlate on this plate: unchanged at speed 0, else its vertices rotated. */
  function MovedVertices(vertices: seq<Vec3>, plate: Plate, dt: real, m: MathLib): seq<Vec3>
    requires AllIn(plate.vertices, |vertices|)
  {
    if plate.velocity == 0.0 then vertices
    else
      var angle := RotationAngle(plate, dt);
      RotateListed(vertices, plate.vertices, Normalize(plate.rotationAxis, m), m.cos(angle), m.sin(angle))
  }

  /** Vertices that are not listed keep their position. */
  lemma {:induction false} RotateUnlisted(vertices: seq<Vec3>, vs: seq<nat>, k: Vec3, c: real, s: real, i: nat)
    requires AllIn(vs, |vertices|) && i < |vertices| && i !in vs
    ensures RotateListed(vertices, vs, k, c, s)[i] == vertices[i]
    decreases |vs|
  {
    if vs != [] {
      RotateUnlisted(vertices, vs[..|vs| - 1], k, c, s, i);
    }
  }

  /** A rotation about a unit axis keeps every vertex's distance to the centre. */
  lemma {:induction false} RotateKeepsLength(vertices: seq<Vec3>, vs: seq<nat>, k: Vec3, c: real, s: real, i: nat)
    requires AllIn(vs, |vertices|) && i < |vertices|
    requires SqLen(k) == 1.0 && Sq(c) + Sq(s) == 1.0
    ensures SqLen(RotateListed(vertices, vs, k, c, s)[i]) == SqLen(vertices[i])
    decreases |vs|
  {
    if vs != [] {
      var w := RotateListed(vertices, vs[..|vs| - 1], k, c, s);
      RotateKeepsLength(vertices, vs[..|vs| - 1], k, c, s, i);
      if vs[|vs| - 1] == i {
        RodriguesPreservesLength(w[i], k, c, s);
      }
    }
  }

  /**
   * movePlate changes only the plate's own vertices, and with a non-zero axis
   * and a lawful library keeps every vertex on its sphere.
   */
  lemma MovedVerticesProperties(vertices: seq<Vec3>, plate: Plate, dt: real, m: MathLib)
    requires AllIn(plate.vertices, |vertices|)
    ensures |MovedVertices(vertices, plate, dt, m)| == |vertices|
    ensures forall i :: 0 <= i < |vertices| && i !in plate.vertices ==> MovedVertices(vertices, plate, dt, m)[i] == vertices[i]
    ensures Lawful(m) && plate.rotationAxis != Zero ==>
      forall i :: 0 <= i < |vertices| ==> SqLen(MovedVertices(vertices, plate, dt, m)[i]) == SqLen(vertices[i])
  {
    if plate.velocity != 0.0 {
      var angle := RotationAngle(plate, dt);
      var k := Normalize(plate.rotationAxis, m);
      assert MovedVertices(vertices, plate, dt, m) == RotateListed(vertices, plate.vertices, k, m.cos(angle), m.sin(angle));
      forall i | 0 <= i < |vertices| && i !in plate.vertices
        ensures MovedVertices(vertices, plate, dt, m)[i] == vertices[i]
      {
        RotateUnlisted(vertices, plate.vertices, k, m.cos(angle), m.sin(angle), i);
      }
      if Lawful(m) && plate.rotationAxis != Zero {
        NormalizeIsUnit(plate.rotationAxis, m);
        TrigLaw(m, angle);
        forall i | 0 <= i < |vertices|
          ensures SqLen(MovedVertices(vertices, plate, dt, m)[i]) == SqLen(vertices[i])
        {
          RotateKeepsLength(vertices, plate.vertices, k, m.cos(angle), m.sin(angle), i);
        }
      }
    }
  }

  /**
   * Rotate every vertex of plate p about the plate's normalised axis by
   * speed x dt x attenuation, with Rodrigues' formula; nothing at speed 0.
   */
  method MovePlate(planet: Planet, p: nat, dt: real, m: MathLib)
    requires p < |planet.plates| && AllIn(planet.plates[p].vertices, |planet.vertices|)
    modifies planet`vertices
    ensures planet.vertices == MovedVertices(old(planet.vertices), planet.plates[p], dt, m)
  {
    var plate := planet.plates[p];
    if plate.velocity == 0.0 {
      return;
    }
    var vs := plate.vertices;
    var angle := RotationAngle(plate, dt);
    var axis := Normalize(plate.rotationAxis, m);
    var v := 0;
    while v < |vs|
      invariant v <= |vs| && AllIn(vs[..v], |old(planet.vertices)|)
      invariant planet.vertices == RotateListed(old(planet.vertices), vs[..v], axis, m.cos(angle), m.sin(angle))
    {
      assert vs[..v + 1][..v] == vs[..v];
      var x := vs[v];
      planet.vertices := planet.vertices[x := Rodrigues(planet.vertices[x], axis, m.cos(angle), m.sin(angle))];
      v := v + 1;
    }
    assert vs[..v] == vs;
    assert planet.vertices == MovedVertices(old(planet.vertices), plate, dt, m);
  }
}
