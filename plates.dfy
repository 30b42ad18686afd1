/**
 * Tectonic plates and the ownership relation between vertices and plates.
 *
 * A plate is a value held in the planet's plate vector: its vertex list, its
 * rotation axis and angular speed, its frontier buckets (frontier vertex ->
 * vertices of the plate closest to it) and its terranes with their centroids.
 */
module Plates {
  import opened Geometry

  datatype Plate = Plate(
    vertices: seq<nat>,
    rotationAxis: Vec3,
    velocity: real,
    closestFrontier: map<nat, seq<nat>>,
    terranes: seq<seq<nat>>,
    terraneCentroids: seq<Vec3>)

  /** A default-constructed plate, as plates.resize creates it. */
  const EmptyPlate := Plate([], Zero, 0.0, map[], [], [])

  /**
   * The plates partition the n vertices and agree with the ownership array:
   * every vertex is listed by the plate that owns it, and only by that plate.
   */
  ghost predicate Partitioned(plates: seq<Plate>, owner: seq<nat>, n: nat)
  {
    && |owner| == n
    && (forall v :: 0 <= v < n ==> owner[v] < |plates| && v in plates[owner[v]].vertices)
    && (forall p :: 0 <= p < |plates| ==> forall v :: v in plates[p].vertices ==> v < n && owner[v] == p)
  }

  /** A vertex of a partition is listed by exactly one plate. */
  lemma ExactlyOnePlate(plates: seq<Plate>, owner: seq<nat>, n: nat, v: nat, p: nat)
    requires Partitioned(plates, owner, n) && v < n && p < |plates|
    ensures v in plates[p].vertices <==> p == owner[v]
  {
  }

  function Abs(x: real): (r: real)
    ensures r >= 0.0 && (r == x || r == -x)
  {
    if x < 0.0 then -x else x
  }

  /**
   * The relative speed of two plates: the absolute difference of their speeds,
   * capped at the largest speed. The guard against a negative value can never fire.
   */
  function RelativeSpeed(a: real, b: real, maxVelocity: real): (v: real)
    ensures v <= maxVelocity && v <= Abs(a - b)
    ensures v == Abs(a - b) || v == maxVelocity
    ensures maxVelocity >= 0.0 ==> v >= 0.0
  {
    var d := Abs(a - b);
    var d' := if d < 0.0 then 0.0 else d;
    if d' > maxVelocity then maxVelocity else d'
  }

  /** The relative speed does not depend on the order of the two plates. */
  lemma RelativeSpeedSymmetric(a: real, b: real, maxVelocity: real)
    ensures RelativeSpeed(a, b, maxVelocity) == RelativeSpeed(b, a, maxVelocity)
  {
    assert Abs(a - b) == Abs(b - a);
  }
}
