/**
 * Erosion (src/erosion.h): one pass over the vertices wears continental relief
 * down in proportion to its height and lets oceanic floor settle by a small
 * dampening step. The controller keeps a reference to its planet and the
 * elevation bounds it read at construction.
 *
 * The oceanic step as written divides by minus the floor, so it lowers every
 * vertex in [min, 0] by between 0.05 and 0.1 and moves a vertex at the floor
 * below it. The controller's pass applies that step; the corrected step, which
 * keeps the floor fixed, is modelled beside it as a pass of its own.
 */
module Erosion {
  import opened Options
  import opened Crusts
  import opened Planets

  const ErosionCoefficient: real := 30.0
  const DampeningCoefficient: real := 0.05
  /** Declared by the source but never used. */
  const SedimentCoefficient: real := 0.05

  /** continentalErosion: e - (e / max) x 30, that is e x (1 - 30 / max). */
  function ContinentalErosion(e: real, maxElevation: real): real
    requires maxElevation != 0.0
  {
    e - (e / maxElevation) * ErosionCoefficient
  }

  /** On [0, max] with max >= 30, erosion keeps relief at or above sea level and never raises it. */
  lemma ContinentalErosionBounds(e: real, maxElevation: real)
    requires maxElevation >= ErosionCoefficient && 0.0 <= e <= maxElevation
    ensures 0.0 <= ContinentalErosion(e, maxElevation) <= e
  {
    var k := e / maxElevation;
    assert k * maxElevation == e;
    assert 0.0 <= k <= 1.0;
    assert k * ErosionCoefficient <= k * maxElevation;
  }

  /** oceaincDampening exactly as written: e - (1 - e / -min) x 0.05. */
  function OceanicDampeningAsWritten(e: real, minElevation: real): real
    requires minElevation != 0.0
  {
    e - (1.0 - (e / -minElevation)) * DampeningCoefficient
  }

  /**
   * As written, for a negative floor, the step lowers every vertex in [min, 0]
   * by at least the coefficient and at most twice it.
   */
  lemma OceanicDampeningAsWrittenBounds(e: real, minElevation: real)
    requires minElevation < 0.0 && minElevation <= e <= 0.0
    ensures e - 2.0 * DampeningCoefficient <= OceanicDampeningAsWritten(e, minElevation)
    ensures OceanicDampeningAsWritten(e, minElevation) <= e - DampeningCoefficient
  {
    var k := e / -minElevation;
    assert k * -minElevation == e;
    assert -1.0 <= k <= 0.0;
  }

  /**
   * As written, a vertex at a negative floor is pushed below it, by twice the
   * coefficient: with a floor of -8000 it ends at -8000.1.
   */
  lemma DampeningAsWrittenBreaksFloor(minElevation: real)
    requires minElevation < 0.0
    ensures OceanicDampeningAsWritten(minElevation, minElevation) == minElevation - 2.0 * DampeningCoefficient
    ensures OceanicDampeningAsWritten(minElevation, minElevation) < minElevation
    ensures OceanicDampeningAsWritten(-8000.0, -8000.0) == -8000.1
  {
    assert minElevation / -minElevation == -1.0;
  }

  /** The dampening step as intended: e - (1 - e / min) x 0.05, which fixes the floor. */
  function OceanicDampening(e: real, minElevation: real): real
    requires minElevation != 0.0
  {
    e - (1.0 - e / minElevation) * DampeningCoefficient
  }

  /**
   * For a floor at least the coefficient below sea level, the corrected step
   * maps [min, 0] into itself: it never raises a vertex, never takes it below
   * the floor, and leaves the floor where it is.
   */
  lemma OceanicDampeningBounds(e: real, minElevation: real)
    requires minElevation <= -DampeningCoefficient && minElevation <= e <= 0.0
    ensures minElevation <= OceanicDampening(e, minElevation) <= e
    ensures OceanicDampening(minElevation, minElevation) == minElevation
  {
    var k := e / minElevation;
    assert k * minElevation == e;
    assert 0.0 <= k <= 1.0;
    // the step is (1 - k) x 0.05 and the room above the floor is (1 - k) x -min
    assert e - minElevation == (1.0 - k) * -minElevation;
    ScaleMonotone(1.0 - k, DampeningCoefficient, -minElevation);
    assert minElevation / minElevation == 1.0;
  }

  lemma ScaleMonotone(a: real, b: real, c: real)
    requires a >= 0.0 && b <= c
    ensures a * b <= a * c
  {
    assert a * c - a * b == a * (c - b);
  }

  /** Which oceanic step a pass applies: the one the source writes, or the corrected one. */
  datatype Dampening = AsWritten | Corrected

  /** The oceanic step a pass applies. */
  function Dampened(e: real, minElevation: real, step: Dampening): real
    requires minElevation != 0.0
  {
    match step
    case AsWritten => OceanicDampeningAsWritten(e, minElevation)
    case Corrected => OceanicDampening(e, minElevation)
  }

  /** The new elevation of one record, by its tag. */
  function Eroded(c: Crust, minElevation: real, maxElevation: real, step: Dampening): (r: Crust)
    requires minElevation != 0.0 && maxElevation != 0.0
    ensures r == c.WithElevation(r.elevation)
  {
    if c.ContinentalCrust? then c.WithElevation(ContinentalErosion(c.elevation, maxElevation))
    else c.WithElevation(Dampened(c.elevation, minElevation, step))
  }

  /** The records of the first n vertices after one pass. */
  function ErodedAll(crust: seq<Option<Crust>>, n: nat, minElevation: real, maxElevation: real,
                     step: Dampening): (r: seq<Option<Crust>>)
    requires n <= |crust| && forall i :: 0 <= i < n ==> crust[i].Some?
    requires minElevation != 0.0 && maxElevation != 0.0
    ensures |r| == |crust|
  {
    seq(|crust|, i requires 0 <= i < |crust| =>
      if i < n then Some(Eroded(crust[i].value, minElevation, maxElevation, step)) else crust[i])
  }

  /**
   * A pass keeps every tag and every field but the elevation, leaves records
   * past the vertex count alone, and keeps continental relief in [0, max] when
   * it started there. Oceanic floor in [min, 0] is lowered by 0.05 to 0.1 by
   * the step as written, and stays in [min, 0] under the corrected step.
   */
  lemma ErosionKeepsBands(crust: seq<Option<Crust>>, n: nat, minElevation: real, maxElevation: real,
                          step: Dampening, i: nat)
    requires n <= |crust| && forall j :: 0 <= j < n ==> crust[j].Some?
    requires minElevation <= -DampeningCoefficient && maxElevation >= ErosionCoefficient
    requires i < |crust|
    ensures var r := ErodedAll(crust, n, minElevation, maxElevation, step);
      && (i >= n ==> r[i] == crust[i])
      && (i < n ==>
            && r[i].Some? && r[i].value.Type() == crust[i].value.Type()
            && r[i].value == crust[i].value.WithElevation(r[i].value.elevation)
            && (crust[i].value.ContinentalCrust? && 0.0 <= crust[i].value.elevation <= maxElevation ==>
                  0.0 <= r[i].value.elevation <= crust[i].value.elevation)
            && (crust[i].value.OceanicCrust? && minElevation <= crust[i].value.elevation <= 0.0 ==>
                  && (step == AsWritten ==>
                        crust[i].value.elevation - 2.0 * DampeningCoefficient <= r[i].value.elevation
                          <= crust[i].value.elevation - DampeningCoefficient)
                  && (step == Corrected ==>
                        minElevation <= r[i].value.elevation <= crust[i].value.elevation)))
  {
    if i < n {
      var c := crust[i].value;
      if c.ContinentalCrust? && 0.0 <= c.elevation <= maxElevation {
        ContinentalErosionBounds(c.elevation, maxElevation);
      }
      if c.OceanicCrust? && minElevation <= c.elevation <= 0.0 {
        if step == AsWritten {
          OceanicDampeningAsWrittenBounds(c.elevation, minElevation);
        } else {
          OceanicDampeningBounds(c.elevation, minElevation);
        }
      }
    }
  }

  /** The erosion controller: a planet and the bounds read from it when it was made. */
  class Eroder {
    const planet: Planet
    var maxElevation: real
    var minElevation: real

    constructor (p: Planet)
      ensures planet == p && maxElevation == p.maxElevation && minElevation == p.minElevation
    {
      planet := p;
      maxElevation := p.maxElevation;
      minElevation := p.minElevation;
    }

    /** Erosion::erosion: rewrite each vertex's elevation according to its tag. */
    method Erode()
      requires |planet.vertices| <= |planet.crustData|
      requires forall i :: 0 <= i < |planet.vertices| ==> planet.crustData[i].Some?
      requires minElevation != 0.0 && maxElevation != 0.0
      modifies planet`crustData
      ensures planet.crustData == ErodedAll(old(planet.crustData), |planet.vertices|, minElevation, maxElevation, AsWritten)
    {
      ghost var crust0 := planet.crustData;
      var lo, hi := minElevation, maxElevation;
      var n := |planet.vertices|;
      var i := 0;
      while i < n
        invariant i <= n && |planet.crustData| == |crust0|
        invariant forall j :: 0 <= j < |crust0| ==>
          planet.crustData[j] == (if j < i then Some(Eroded(crust0[j].value, lo, hi, AsWritten)) else crust0[j])
      {
        var c := planet.crustData[i].value;
        if c.ContinentalCrust? {
          planet.crustData := planet.crustData[i := Some(c.WithElevation(ContinentalErosion(c.elevation, hi)))];
        } else {
          planet.crustData := planet.crustData[i := Some(c.WithElevation(OceanicDampeningAsWritten(c.elevation, lo)))];
        }
        i := i + 1;
      }
      assert planet.crustData == ErodedAll(crust0, n, lo, hi, AsWritten);
    }
  }
}
