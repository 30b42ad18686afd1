/**
 * The uplift half of a continental collision (src/continentalCollision.cpp):
 * the vertices in plate A's and plate B's frontier buckets for the collision
 * vertex are raised by continentalCollisionUplift x f x g x h, damped by
 * elevation band, first all of A's bucket and then all of B's.
 *
 * f, g and h are those of the subduction event. The distance to the
 * interaction front and the three-argument elevation impact are declared in a
 * header that is not part of this model; they are taken to be the Euclidean
 * distance and the clamped linear map of src/subduction.cpp, the latter over
 * the planet's [minElevation, maxElevation].
 */
module CollisionEvent {
  import opened Options
  import opened Geometry
  import opened Crusts
  import opened Phenomena
  import opened Plates
  import opened Planets
  import opened SubductionEvent

  const ContinentalCollisionUplift: real := 5000.0

  /**
   * smoothMountainProfile: a blend of a raised cosine and a Gaussian of the
   * distance as a fraction of the width; nothing from the width on.
   */
  function MountainProfile(distance: real, width: real, smoothness: real, m: MathLib): (r: real)
    requires distance < width ==> width != 0.0
    ensures distance >= width ==> r == 0.0
  {
    if distance >= width then 0.0
    else
      var x := distance / width;
      0.3 * ((m.cos(x * Pi) + 1.0) * 0.5) + 0.7 * m.exp(-smoothness * x * x)
  }

  /** A cosine whose square is at most one lies in [-1, 1]. */
  lemma CosineRange(c: real, s: real)
    requires Sq(c) + Sq(s) == 1.0
    ensures -1.0 <= c <= 1.0
  {
    SquareNonNegative(s);
  }

  /** At the collision point the profile is at its peak, 1. */
  lemma MountainProfileAtCentre(width: real, smoothness: real, m: MathLib)
    requires Lawful(m) && width > 0.0
    ensures MountainProfile(0.0, width, smoothness, m) == 1.0
  {
    assert 0.0 / width == 0.0;
    assert 0.0 * Pi == 0.0;
    assert -smoothness * 0.0 * 0.0 == 0.0;
  }

  /** Inside the width the profile lies in (0, 1] for a non-negative smoothness. */
  lemma MountainProfileBounds(distance: real, width: real, smoothness: real, m: MathLib)
    requires Lawful(m) && distance < width && width != 0.0 && smoothness >= 0.0
    ensures 0.0 < MountainProfile(distance, width, smoothness, m) <= 1.0
  {
    var x := distance / width;
    TrigLaw(m, x * Pi);
    CosineRange(m.cos(x * Pi), m.sin(x * Pi));
    SquareNonNegative(x);
    NonNegativeProduct(smoothness, Sq(x));
    assert -smoothness * x * x == -(smoothness * Sq(x));
  }

  /** Which side of the collision a bucket belongs to; the sides damp differently. */
  datatype Side = SideA | SideB

  /**
   * The damping of the uplift by the current elevation: x0.1 from 6000, x0.5
   * (side A) or x0.2 (side B) from 4000, x0.4 from 2000, none below.
   */
  function Damping(e: real, side: Side): (k: real)
    ensures 0.0 < k <= 1.0
    ensures k == 1.0 <==> e < 2000.0
  {
    if e >= 6000.0 then 0.1
    else if e >= 4000.0 then (if side == SideA then 0.5 else 0.2)
    else if e >= 2000.0 then 0.4
    else 1.0
  }

  /** Side B is damped at least as much as side A, and differently only in [4000, 6000). */
  lemma DampingSides(e: real)
    ensures Damping(e, SideB) <= Damping(e, SideA)
    ensures Damping(e, SideB) != Damping(e, SideA) <==> 4000.0 <= e < 6000.0
  {
  }

  /** The undamped uplift of a vertex at distance d, speed v and elevation factor z. */
  function CollisionUplift(d: real, v: real, z: real): real
  {
    ContinentalCollisionUplift * Falloff(d) * SpeedFactor(v) * ElevationFactor(z)
  }

  /** The new elevation of a vertex at elevation e. */
  function Raise(e: real, d: real, v: real, lo: real, hi: real, side: Side): real
  {
    e + CollisionUplift(d, v, ElevationImpact(e, lo, hi)) * Damping(e, side)
  }

  /**
   * A vertex never sinks when the speed is not negative, and rises by at most
   * continentalCollisionUplift when the speed is at most max_velocity.
   */
  lemma RaiseBounds(e: real, d: real, v: real, lo: real, hi: real, side: Side)
    requires 0.0 <= v
    ensures e <= Raise(e, d, v, lo, hi, side)
    ensures v <= MaxVelocity ==> Raise(e, d, v, lo, hi, side) <= e + ContinentalCollisionUplift
  {
    var f := Falloff(d);
    var g := SpeedFactor(v);
    var h := ElevationFactor(ElevationImpact(e, lo, hi));
    var k := Damping(e, side);
    assert g >= 0.0;
    NonNegativeProduct(f, g);
    NonNegativeProduct(f * g, h);
    NonNegativeProduct(f * g * h, k);
    assert CollisionUplift(d, v, ElevationImpact(e, lo, hi)) * k == ContinentalCollisionUplift * (f * g * h * k);
    if v <= MaxVelocity {
      UnitProduct(f, g, h);
      assert f * g * h * k <= 1.0 * k;
    }
  }

  /** What the uplift loops index or dereference without checking. */
  predicate CollisionInputs(vertices: seq<Vec3>, crust: seq<Option<Crust>>, front: nat, list: seq<nat>)
  {
    && front < |vertices|
    && forall k :: 0 <= k < |list| ==> list[k] < |vertices| && list[k] < |crust| && crust[list[k]].Some?
  }

  /** The crust after one side's loop has visited the listed vertices in order. */
  function Raised(vertices: seq<Vec3>, crust: seq<Option<Crust>>, front: nat, list: seq<nat>,
                  v: real, lo: real, hi: real, side: Side, m: MathLib): (r: seq<Option<Crust>>)
    requires CollisionInputs(vertices, crust, front, list)
    ensures SameRecords(r, crust)
    decreases |list|
  {
    if list == [] then crust
    else
      var c := Raised(vertices, crust, front, list[..|list| - 1], v, lo, hi, side, m);
      var x := list[|list| - 1];
      var d := Length(Sub(vertices[x], vertices[front]), m);
      c[x := Some(c[x].value.WithElevation(Raise(c[x].value.elevation, d, v, lo, hi, side)))]
  }

  /**
   * One side's loop leaves unlisted vertices alone, never lowers a vertex, and
   * raises it by at most continentalCollisionUplift per listing.
   */
  lemma {:induction false} RaisedBounds(vertices: seq<Vec3>, crust: seq<Option<Crust>>, front: nat, list: seq<nat>,
                                        v: real, lo: real, hi: real, side: Side, m: MathLib, i: nat)
    requires CollisionInputs(vertices, crust, front, list) && 0.0 <= v && i < |crust|
    ensures var r := Raised(vertices, crust, front, list, v, lo, hi, side, m);
      && (i !in list ==> r[i] == crust[i])
      && (crust[i].Some? ==> crust[i].value.elevation <= r[i].value.elevation)
      && (crust[i].Some? && v <= MaxVelocity ==>
            r[i].value.elevation <= crust[i].value.elevation + ContinentalCollisionUplift * (multiset(list)[i] as real))
    decreases |list|
  {
    if list != [] {
      var prefix := list[..|list| - 1];
      var x := list[|list| - 1];
      assert list == prefix + [x];
      var whole: multiset<nat> := multiset(list);
      var front': multiset<nat> := multiset(prefix);
      assert whole == front' + multiset{x};
      assert whole[i] == front'[i] + (if x == i then 1 else 0);
      RaisedBounds(vertices, crust, front, prefix, v, lo, hi, side, m, i);
      var c := Raised(vertices, crust, front, prefix, v, lo, hi, side, m);
      if x == i {
        RaiseBounds(c[x].value.elevation, Length(Sub(vertices[x], vertices[front]), m), v, lo, hi, side);
      }
    }
  }

  /** closestFrontierVertices[k], reading an absent key as an empty bucket. */
  function BucketAt(p: Plate, k: nat): (b: seq<nat>)
    ensures k !in p.closestFrontier ==> b == []
  {
    if k in p.closestFrontier then p.closestFrontier[k] else []
  }

  /** The plate after operator[] has looked up key k: an empty bucket is added if k was absent. */
  function WithBucket(p: Plate, k: nat): (q: Plate)
    ensures q.closestFrontier.Keys == p.closestFrontier.Keys + {k}
    ensures forall j :: j in p.closestFrontier ==> q.closestFrontier[j] == p.closestFrontier[j]
    ensures BucketAt(q, k) == BucketAt(p, k)
    ensures q.(closestFrontier := p.closestFrontier) == p
  {
    if k in p.closestFrontier then p else p.(closestFrontier := p.closestFrontier[k := []])
  }

  /** The plates after both lookups, A's first. */
  function LookedUp(plates: seq<Plate>, a: nat, b: nat, k: nat): (r: seq<Plate>)
    requires a < |plates| && b < |plates|
  {
    var ps := plates[a := WithBucket(plates[a], k)];
    ps[b := WithBucket(ps[b], k)]
  }

  /**
   * The lookups change no plate except by adding the key k, with an empty
   * bucket, to plate A and plate B where it was absent.
   */
  lemma LookedUpAddsOnlyKeys(plates: seq<Plate>, a: nat, b: nat, k: nat)
    requires a < |plates| && b < |plates|
    ensures var r := LookedUp(plates, a, b, k);
      && |r| == |plates|
      && (forall p :: 0 <= p < |plates| ==> r[p].(closestFrontier := plates[p].closestFrontier) == plates[p])
      && (forall p :: 0 <= p < |plates| && p != a && p != b ==> r[p] == plates[p])
      && (forall p :: p == a || p == b ==>
            && r[p].closestFrontier.Keys == plates[p].closestFrontier.Keys + {k}
            && BucketAt(r[p], k) == BucketAt(plates[p], k))
  {
  }

  /** Both sides' loops, B's after A's. */
  function Collided(vertices: seq<Vec3>, crust: seq<Option<Crust>>, front: nat, listA: seq<nat>, listB: seq<nat>,
                    v: real, lo: real, hi: real, m: MathLib): (r: seq<Option<Crust>>)
    requires CollisionInputs(vertices, crust, front, listA) && CollisionInputs(vertices, crust, front, listB)
    ensures SameRecords(r, crust)
  {
    var c := Raised(vertices, crust, front, listA, v, lo, hi, SideA, m);
    Raised(vertices, c, front, listB, v, lo, hi, SideB, m)
  }

  /**
   * Only vertices of the two buckets change, only in elevation, and none of
   * them sinks when the speed is not negative.
   */
  lemma CollisionOnlyRaisesBuckets(vertices: seq<Vec3>, crust: seq<Option<Crust>>, front: nat, listA: seq<nat>,
                                   listB: seq<nat>, v: real, lo: real, hi: real, m: MathLib, i: nat)
    requires CollisionInputs(vertices, crust, front, listA) && CollisionInputs(vertices, crust, front, listB)
    requires 0.0 <= v && i < |crust|
    ensures var r := Collided(vertices, crust, front, listA, listB, v, lo, hi, m);
      && (i !in listA && i !in listB ==> r[i] == crust[i])
      && (crust[i].Some? ==> crust[i].value.elevation <= r[i].value.elevation)
  {
    var c := Raised(vertices, crust, front, listA, v, lo, hi, SideA, m);
    RaisedBounds(vertices, crust, front, listA, v, lo, hi, SideA, m, i);
    RaisedBounds(vertices, c, front, listB, v, lo, hi, SideB, m, i);
  }

  /** One side's loop over its bucket. */
  method RaiseSide(planet: Planet, list: seq<nat>, front: nat, v: real, lo: real, hi: real, side: Side, m: MathLib)
    requires CollisionInputs(planet.vertices, planet.crustData, front, list)
    modifies planet`crustData
    ensures planet.crustData == Raised(planet.vertices, old(planet.crustData), front, list, v, lo, hi, side, m)
  {
    ghost var crust0 := planet.crustData;
    var k := 0;
    while k < |list|
      invariant k <= |list|
      invariant planet.crustData == Raised(planet.vertices, crust0, front, list[..k], v, lo, hi, side, m)
    {
      assert list[..k + 1][..k] == list[..k];
      var x := list[k];
      var d := Length(Sub(planet.vertices[x], planet.vertices[front]), m);
      var e := Raise(planet.crustData[x].value.elevation, d, v, lo, hi, side);
      planet.crustData := planet.crustData[x := Some(planet.crustData[x].value.WithElevation(e))];
      k := k + 1;
    }
    assert list[..k] == list;
  }

  /**
   * ContinentalCollision::triggerEvent: look up both buckets for the collision
   * vertex, then raise the vertices of A's bucket and then those of B's.
   */
  method TriggerCollision(planet: Planet, ph: Phenomenon, m: MathLib)
    requires ph.ContinentalCollision? && ph.plateA < |planet.plates| && ph.plateB < |planet.plates|
    requires CollisionInputs(planet.vertices, planet.crustData, ph.vertex, BucketAt(planet.plates[ph.plateA], ph.vertex))
    requires CollisionInputs(planet.vertices, planet.crustData, ph.vertex, BucketAt(planet.plates[ph.plateB], ph.vertex))
    modifies planet`plates, planet`crustData
    ensures planet.plates == LookedUp(old(planet.plates), ph.plateA, ph.plateB, ph.vertex)
    ensures planet.crustData ==
      Collided(planet.vertices, old(planet.crustData), ph.vertex,
               BucketAt(old(planet.plates)[ph.plateA], ph.vertex), BucketAt(old(planet.plates)[ph.plateB], ph.vertex),
               RelativeSpeed(old(planet.plates)[ph.plateA].velocity, old(planet.plates)[ph.plateB].velocity, planet.maxVelocity),
               planet.minElevation, planet.maxElevation, m)
  {
    var lo, hi := planet.minElevation, planet.maxElevation;
    var front := ph.vertex;
    ghost var plates0 := planet.plates;
    ghost var crust0 := planet.crustData;
    var listA := BucketAt(planet.plates[ph.plateA], front);
    planet.plates := planet.plates[ph.plateA := WithBucket(planet.plates[ph.plateA], front)];
    var listB := BucketAt(planet.plates[ph.plateB], front);
    assert listB == BucketAt(plates0[ph.plateB], front);
    planet.plates := planet.plates[ph.plateB := WithBucket(planet.plates[ph.plateB], front)];
    var v := planet.RelativeVelocity(planet.plates[ph.plateA], planet.plates[ph.plateB]);
    assert v == RelativeSpeed(plates0[ph.plateA].velocity, plates0[ph.plateB].velocity, planet.maxVelocity);

    RaiseSide(planet, listA, front, v, lo, hi, SideA, m);
    RaiseSide(planet, listB, front, v, lo, hi, SideB, m);
  }
}
