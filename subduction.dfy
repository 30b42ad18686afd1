/**
 * The subduction event (src/subduction.cpp): vertices near a subduction front,
 * except those of the subducting plate, are raised by
 * subductionUplift x f(distance) x g(relative speed) x h(elevation factor).
 *
 * The list of vertices closest to the phenomenon is not part of the shown
 * record; it is a parameter here.
 */
module SubductionEvent {
  import opened Options
  import opened Geometry
  import opened Crusts
  import opened Phenomena
  import opened Plates
  import opened Planets

  /** r_s: the distance beyond which the front has no effect. */
  const InfluenceRadius: real := 10.0
  /** The speed at which g reaches 1. */
  const MaxVelocity: real := 5.0
  /** The largest uplift one vertex receives from one event. */
  const SubductionUplift: real := 0.1
  const MinZ: real := -1000.0
  const MaxZ: real := 1000.0

  lemma {:induction false} NonNegativeProduct(a: real, b: real)
    requires a >= 0.0 && b >= 0.0
    ensures a * b >= 0.0
  {
  }

  /** On 0 < x < 1 the smoothstep 1 - 3x^2 + 2x^3 = (1-x)^2 (1+2x) stays within [0, 1]. */
  lemma {:induction false} SmoothstepBounds(x: real)
    requires 0.0 < x < 1.0
    ensures 0.0 <= 1.0 - 3.0 * x * x + 2.0 * x * x * x <= 1.0
  {
    assert 1.0 - 3.0 * x * x + 2.0 * x * x * x == Sq(1.0 - x) * (1.0 + 2.0 * x);
    assert 3.0 * x * x - 2.0 * x * x * x == Sq(x) * (3.0 - 2.0 * x);
    SquareNonNegative(1.0 - x);
    SquareNonNegative(x);
    NonNegativeProduct(Sq(1.0 - x), 1.0 + 2.0 * x);
    NonNegativeProduct(Sq(x), 3.0 - 2.0 * x);
  }

  /** f: full effect at the front, none from r_s on, a smooth fall in between. */
  function Falloff(d: real): (r: real)
    ensures 0.0 <= r <= 1.0
    ensures d <= 0.0 ==> r == 1.0
    ensures d >= InfluenceRadius ==> r == 0.0
  {
    if d <= 0.0 then 1.0
    else if d >= InfluenceRadius then 0.0
    else
      var x := d / InfluenceRadius;
      SmoothstepBounds(x);
      1.0 - 3.0 * x * x + 2.0 * x * x * x
  }

  /** g: the speed as a fraction of MaxVelocity. */
  function SpeedFactor(v: real): (r: real)
    ensures 0.0 <= v <= MaxVelocity ==> 0.0 <= r <= 1.0
    ensures r * MaxVelocity == v
  {
    v / MaxVelocity
  }

  /** h: the square of the elevation factor. */
  function ElevationFactor(z: real): (r: real)
    ensures r >= 0.0
    ensures 0.0 <= z <= 1.0 ==> r <= 1.0
    ensures r == 0.0 <==> z == 0.0
  {
    SquareFactsBounds(z);
    Sq(z)
  }

  lemma SquareFactsBounds(z: real)
    ensures Sq(z) >= 0.0
    ensures 0.0 <= z <= 1.0 ==> Sq(z) <= 1.0
    ensures Sq(z) == 0.0 <==> z == 0.0
  {
    SquareNonNegative(z);
    if z != 0.0 { SquarePositive(z); }
    if 0.0 <= z <= 1.0 { assert z * z <= 1.0 * z; }
  }

  /** With a positive scale d, t x d has the sign of t. */
  lemma {:induction false} SignOfScaled(t: real, d: real)
    requires d > 0.0
    ensures t < 0.0 <==> t * d < 0.0
    ensures t == 0.0 <==> t * d == 0.0
  {
    if t > 0.0 {
      PositiveProduct(t, d, t * d);
    } else if t < 0.0 {
      PositiveProduct(-t, d, (-t) * d);
      assert (-t) * d == -(t * d);
    }
  }

  /** With a positive scale d and y = t x d, t compares with 0 and 1 as y compares with 0 and d. */
  lemma {:induction false} UnitScale(t: real, d: real, y: real)
    requires d > 0.0 && t * d == y
    ensures t < 0.0 <==> y < 0.0
    ensures t == 0.0 <==> y == 0.0
    ensures t > 1.0 <==> y > d
    ensures t == 1.0 <==> y == d
  {
    SignOfScaled(t, d);
    SignOfScaled(t - 1.0, d);
    assert (t - 1.0) * d == t * d - d;
  }

  /** y / d, for a positive d. */
  function Ratio(y: real, d: real): (t: real)
    requires d > 0.0
    ensures t * d == y
  {
    y / d
  }

  /**
   * The elevation mapped linearly from [lo, hi] onto [0, 1] and clamped; 0 when
   * the range is empty.
   */
  function ElevationImpact(z: real, lo: real, hi: real): (r: real)
    ensures 0.0 <= r <= 1.0
    ensures hi <= lo ==> r == 0.0
    ensures lo < hi && z <= lo ==> r == 0.0
    ensures lo < hi && z >= hi ==> r == 1.0
  {
    if hi <= lo then 0.0
    else
      var t := Ratio(z - lo, hi - lo);
      UnitScale(t, hi - lo, z - lo);
      if t < 0.0 then 0.0 else if t > 1.0 then 1.0 else t
  }

  /** Inside a non-empty range the impact is the linear map of the elevation onto [0, 1]. */
  lemma {:induction false} ElevationImpactLinear(z: real, lo: real, hi: real)
    requires lo < hi && lo <= z <= hi
    ensures ElevationImpact(z, lo, hi) * (hi - lo) == z - lo
  {
    var t := Ratio(z - lo, hi - lo);
    UnitScale(t, hi - lo, z - lo);
  }

  /** The relative speed of the two plates, clamped to MaxVelocity. */
  function SubductionSpeed(under: Plate, over: Plate): (v: real)
    ensures 0.0 <= v <= MaxVelocity
    ensures v == Abs(under.velocity - over.velocity) || v == MaxVelocity
  {
    RelativeSpeed(under.velocity, over.velocity, MaxVelocity)
  }

  /** Which plate is called the subducting one does not change the speed. */
  lemma SubductionSpeedSymmetric(under: Plate, over: Plate)
    ensures SubductionSpeed(under, over) == SubductionSpeed(over, under)
  {
    RelativeSpeedSymmetric(under.velocity, over.velocity, MaxVelocity);
  }

  /** The uplift of one vertex at distance d, with plate speed v and front elevation z. */
  function Uplift(d: real, v: real, z: real): real
  {
    SubductionUplift * Falloff(d) * SpeedFactor(v) * ElevationFactor(ElevationImpact(z, MinZ, MaxZ))
  }

  lemma {:induction false} UnitProduct(a: real, b: real, c: real)
    requires 0.0 <= a <= 1.0 && 0.0 <= b <= 1.0 && 0.0 <= c <= 1.0
    ensures 0.0 <= a * b * c <= 1.0
  {
    var p := a * b;
    NonNegativeProduct(a, b);
    NonNegativeProduct(1.0 - a, b);
    assert (1.0 - a) * b == b - p;
    NonNegativeProduct(p, c);
    NonNegativeProduct(1.0 - p, c);
    assert (1.0 - p) * c == c - p * c;
  }

  /** Each uplift lies in [0, subductionUplift], since f, g and h all lie in [0, 1]. */
  lemma UpliftBounds(d: real, v: real, z: real)
    requires 0.0 <= v <= MaxVelocity
    ensures 0.0 <= Uplift(d, v, z) <= SubductionUplift
  {
    var f := Falloff(d);
    var g := SpeedFactor(v);
    var h := ElevationFactor(ElevationImpact(z, MinZ, MaxZ));
    UnitProduct(f, g, h);
    assert SubductionUplift * f * g * h == SubductionUplift * (f * g * h);
  }

  /** What Subduction::triggerEvent indexes or dereferences without checking. */
  predicate SubductionInputs(vertices: seq<Vec3>, crust: seq<Option<Crust>>, owner: seq<nat>, front: nat, list: seq<nat>)
  {
    && front < |vertices| && front < |crust| && crust[front].Some?
    && forall k :: 0 <= k < |list| ==>
         list[k] < |owner| && list[k] < |vertices| && list[k] < |crust| && crust[list[k]].Some?
  }

  /** The same records, with only elevations possibly changed. */
  predicate SameRecords(c: seq<Option<Crust>>, crust: seq<Option<Crust>>)
  {
    && |c| == |crust|
    && forall i :: 0 <= i < |crust| ==>
         (c[i].Some? <==> crust[i].Some?) &&
         (crust[i].Some? ==> c[i].value == crust[i].value.WithElevation(c[i].value.elevation))
  }

  /**
   * The crust array after the loop: the listed vertices are visited in order,
   * those of the subducting plate skipped, the others raised by the uplift
   * computed from the current elevation at the front.
   */
  function Subducted(vertices: seq<Vec3>, crust: seq<Option<Crust>>, owner: seq<nat>, under: nat, front: nat,
                     v: real, list: seq<nat>, m: MathLib): (r: seq<Option<Crust>>)
    requires SubductionInputs(vertices, crust, owner, front, list)
    ensures SameRecords(r, crust)
    decreases |list|
  {
    if list == [] then crust
    else
      var c := Subducted(vertices, crust, owner, under, front, v, list[..|list| - 1], m);
      Listed(vertices, c, owner, under, front, v, list[|list| - 1], m)
  }

  /** One listed vertex: skipped on the subducting plate, raised otherwise. */
  function Listed(vertices: seq<Vec3>, c: seq<Option<Crust>>, owner: seq<nat>, under: nat, front: nat,
                  v: real, x: nat, m: MathLib): seq<Option<Crust>>
    requires x < |owner| && front < |vertices| && x < |vertices| && front < |c| && x < |c| && c[front].Some? && c[x].Some?
  {
    if owner[x] == under then c else Raised(vertices, c, front, v, x, m)
  }

  /** Vertex x raised by the uplift for its distance to the front and the front's elevation in c. */
  function Raised(vertices: seq<Vec3>, c: seq<Option<Crust>>, front: nat, v: real, x: nat, m: MathLib): seq<Option<Crust>>
    requires front < |vertices| && x < |vertices| && front < |c| && x < |c| && c[front].Some? && c[x].Some?
  {
    var d := Length(Sub(vertices[x], vertices[front]), m);
    c[x := Some(c[x].value.WithElevation(c[x].value.elevation + Uplift(d, v, c[front].value.elevation)))]
  }

  /**
   * r is crust after the listed vertices were processed: vertices that are not
   * listed, or that belong to the subducting plate, keep their record; every
   * other vertex rises by at most subductionUplift for each time it is listed,
   * and never sinks.
   */
  ghost predicate RiseBounded(crust: seq<Option<Crust>>, r: seq<Option<Crust>>, owner: seq<nat>, under: nat, list: seq<nat>)
  {
    && SameRecords(r, crust)
    && forall i :: 0 <= i < |crust| ==>
         && (i !in list || (i < |owner| && owner[i] == under) ==> r[i] == crust[i])
         && (crust[i].Some? ==>
               crust[i].value.elevation <= r[i].value.elevation
                 <= crust[i].value.elevation + SubductionUplift * (multiset(list)[i] as real))
  }

  /** Processing one more listed vertex keeps the rise of every vertex within its bound. */
  lemma {:induction false} RiseStep(vertices: seq<Vec3>, crust: seq<Option<Crust>>, r: seq<Option<Crust>>, owner: seq<nat>,
                                    under: nat, front: nat, v: real, list: seq<nat>, x: nat, m: MathLib)
    requires 0.0 <= v <= MaxVelocity
    requires RiseBounded(crust, r, owner, under, list)
    requires front < |vertices| && x < |vertices| && x < |owner| && front < |r| && x < |r| && r[front].Some? && r[x].Some?
    ensures RiseBounded(crust, Listed(vertices, r, owner, under, front, v, x, m), owner, under, list + [x])
  {
    var whole: multiset<nat> := multiset(list + [x]);
    assert whole == multiset(list) + multiset{x};
    var r' := Listed(vertices, r, owner, under, front, v, x, m);
    if owner[x] != under {
      UpliftBounds(Length(Sub(vertices[x], vertices[front]), m), v, r[front].value.elevation);
    }
    forall i | 0 <= i < |crust|
      ensures (i !in list + [x] || (i < |owner| && owner[i] == under) ==> r'[i] == crust[i])
      ensures (crust[i].Some? ==>
                 crust[i].value.elevation <= r'[i].value.elevation
                   <= crust[i].value.elevation + SubductionUplift * (whole[i] as real))
    {
      assert whole[i] == multiset(list)[i] + (if x == i then 1 else 0);
    }
  }

  /** Extending the processed prefix of the list by entry k applies that entry's step. */
  lemma {:induction false} SubductedStep(vertices: seq<Vec3>, crust: seq<Option<Crust>>, owner: seq<nat>, under: nat,
                                         front: nat, v: real, list: seq<nat>, m: MathLib, k: nat)
    requires SubductionInputs(vertices, crust, owner, front, list) && k < |list|
    ensures SubductionInputs(vertices, crust, owner, front, list[..k])
    ensures SubductionInputs(vertices, crust, owner, front, list[..k + 1])
    ensures var c := Subducted(vertices, crust, owner, under, front, v, list[..k], m);
      list[k] < |owner| && list[k] < |vertices| && list[k] < |c| && c[list[k]].Some? && front < |c| && c[front].Some?
    ensures Subducted(vertices, crust, owner, under, front, v, list[..k + 1], m) ==
      Listed(vertices, Subducted(vertices, crust, owner, under, front, v, list[..k], m), owner, under, front, v, list[k], m)
  {
    assert list[..k + 1][..k] == list[..k];
  }

  /** One turn of the loop of RaiseListed keeps both of its invariants. */
  lemma {:induction false} ListedStep(vertices: seq<Vec3>, crust: seq<Option<Crust>>, owner: seq<nat>, under: nat,
                                      front: nat, v: real, list: seq<nat>, m: MathLib, k: nat, r: seq<Option<Crust>>)
    requires SubductionInputs(vertices, crust, owner, front, list) && k < |list|
    requires SubductionInputs(vertices, crust, owner, front, list[..k])
    requires r == Subducted(vertices, crust, owner, under, front, v, list[..k], m)
    requires 0.0 <= v <= MaxVelocity ==> RiseBounded(crust, r, owner, under, list[..k])
    ensures SubductionInputs(vertices, crust, owner, front, list[..k + 1])
    ensures list[k] < |owner| && list[k] < |vertices| && list[k] < |r| && r[list[k]].Some?
    ensures front < |vertices| && front < |r| && r[front].Some?
    ensures var r' := Listed(vertices, r, owner, under, front, v, list[k], m);
      && r' == Subducted(vertices, crust, owner, under, front, v, list[..k + 1], m)
      && (0.0 <= v <= MaxVelocity ==> RiseBounded(crust, r', owner, under, list[..k + 1]))
  {
    SubductedStep(vertices, crust, owner, under, front, v, list, m, k);
    assert list[..k + 1] == list[..k] + [list[k]];
    if 0.0 <= v <= MaxVelocity {
      RiseStep(vertices, crust, r, owner, under, front, v, list[..k], list[k], m);
    }
  }

  /**
   * Subduction::triggerEvent: raise every listed vertex not on the subducting
   * plate. The relative speed is that of the subducting and the overriding plate.
   */
  method TriggerSubduction(planet: Planet, ph: Phenomenon, list: seq<nat>, m: MathLib)
    requires ph.Subduction? && ph.under < |planet.plates| && ph.over < |planet.plates|
    requires SubductionInputs(planet.vertices, planet.crustData, planet.verticesToPlates, ph.vertex, list)
    modifies planet`crustData
    ensures planet.crustData == Subducted(planet.vertices, old(planet.crustData), planet.verticesToPlates, ph.under, ph.vertex,
                                          SubductionSpeed(planet.plates[ph.under], planet.plates[ph.over]), list, m)
    ensures RiseBounded(old(planet.crustData), planet.crustData, planet.verticesToPlates, ph.under, list)
  {
    var v := SubductionSpeed(planet.plates[ph.under], planet.plates[ph.over]);
    planet.crustData := RaiseListed(planet.vertices, planet.crustData, planet.verticesToPlates, ph.under, ph.vertex, v, list, m);
  }

  /** The loop of triggerEvent over the listed vertices, on the crust records. */
  method RaiseListed(vertices: seq<Vec3>, crust: seq<Option<Crust>>, owner: seq<nat>, under: nat, front: nat,
                     v: real, list: seq<nat>, m: MathLib) returns (r: seq<Option<Crust>>)
    requires SubductionInputs(vertices, crust, owner, front, list)
    ensures r == Subducted(vertices, crust, owner, under, front, v, list, m)
    ensures 0.0 <= v <= MaxVelocity ==> RiseBounded(crust, r, owner, under, list)
  {
    r := crust;
    var k := 0;
    while k < |list|
      invariant k <= |list|
      invariant SubductionInputs(vertices, crust, owner, front, list[..k])
      invariant r == Subducted(vertices, crust, owner, under, front, v, list[..k], m)
      invariant 0.0 <= v <= MaxVelocity ==> RiseBounded(crust, r, owner, under, list[..k])
    {
      ListedStep(vertices, crust, owner, under, front, v, list, m, k, r);
      r := Listed(vertices, r, owner, under, front, v, list[k], m);
      k := k + 1;
    }
    assert list[..k] == list;
  }
}
