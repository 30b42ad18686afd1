/**
 * The crust-generation event of a rift (src/crustGeneration.cpp): fresh
 * oceanic crust at the rift vertex, its elevation blended from the ridge
 * template, the old elevation and the abyssal depth, its ridge direction
 * perpendicular to the line to the ridge point, and its age the distance to the
 * ridge over the divergence.
 *
 * The record's ridge point q and closest plate boundary are not part of the
 * phenomenon record the classifier builds; they are parameters here.
 */
module CrustGeneration {
  import opened Options
  import opened Geometry
  import opened Crusts
  import opened Phenomena
  import opened Planets

  /** The height of the ridge template. */
  const RidgeHeight: real := 0.0
  /** The width of the ridge template. */
  const RidgeWidth: real := 0.05
  /** The abyssal depth new crust sinks to away from the ridge. */
  const BaseDepth: real := -5000.0
  const RiftInfluenceRadius: real := 0.08
  /** The highest elevation new oceanic crust may have. */
  const Ceiling: real := -10.0
  /** The guard added to the denominators. */
  const Epsilon: real := 0.000001

  function Min(a: real, b: real): (r: real)
    ensures r <= a && r <= b && (r == a || r == b)
  {
    if a <= b then a else b
  }

  /** alpha: the share of the distance to the ridge in the two distances. */
  function Alpha(dGamma: real, dP: real): (a: real)
    requires dGamma >= 0.0 && dP >= 0.0
    ensures 0.0 <= a < 1.0
  {
    var den := dGamma + dP + Epsilon;
    assert dGamma < den;
    dGamma / den
  }

  /** The ridge template zGamma, a Gaussian of height RidgeHeight: zero everywhere. */
  function RidgeTemplate(dGamma: real, m: MathLib): (z: real)
    ensures z == 0.0
  {
    RidgeHeight * m.exp(-(dGamma * dGamma) / (2.0 * RidgeWidth * RidgeWidth))
  }

  /** The weight of the abyssal depth: the distance over half the influence radius, capped at 1. */
  function BlendFactor(dGamma: real): (b: real)
    requires dGamma >= 0.0
    ensures 0.0 <= b <= 1.0
    ensures b == 1.0 <==> dGamma >= RiftInfluenceRadius * 0.5
  {
    Min(1.0, dGamma / (RiftInfluenceRadius * 0.5))
  }

  /**
   * The new elevation: the template blended with the old elevation by alpha,
   * then with the abyssal depth by the blend factor, then capped at -10.
   */
  function NewElevation(dGamma: real, dP: real, zBar: real, m: MathLib): (e: real)
    requires dGamma >= 0.0 && dP >= 0.0
    ensures e <= Ceiling
  {
    var alpha := Alpha(dGamma, dP);
    var blended := (1.0 - alpha) * RidgeTemplate(dGamma, m) + alpha * zBar;
    var b := BlendFactor(dGamma);
    Min((1.0 - b) * blended + b * BaseDepth, Ceiling)
  }

  /**
   * Far enough from the ridge the blend is all abyssal depth, whatever the old
   * elevation was.
   */
  lemma FarFromRidge(dGamma: real, dP: real, zBar: real, m: MathLib)
    requires dGamma >= RiftInfluenceRadius * 0.5 && dP >= 0.0
    ensures NewElevation(dGamma, dP, zBar, m) == BaseDepth
  {
    var b := BlendFactor(dGamma);
    assert b == 1.0;
  }

  /** The ridge direction: the normalised cross product of p - q with the normalised p. */
  function RidgeDirection(p: Vec3, q: Vec3, m: MathLib): Vec3
  {
    Normalize(Cross(Sub(p, q), Normalize(p, m)), m)
  }

  /** The thickness of replacing crust: 1000, plus half of any positive elevation. */
  function NewThickness(e: real): (t: real)
    ensures e <= 0.0 ==> t == 1000.0
    ensures t >= 1000.0
  {
    1000.0 + (if e > 0.0 then e * 0.5 else 0.0)
  }

  lemma LengthNonNegative(a: Vec3, m: MathLib)
    requires Lawful(m)
    ensures Length(a, m) >= 0.0
  {
    SqLenNonNegative(a);
    SqrtLaw(m, SqLen(a));
  }

  /** What the event reads without checking. */
  predicate GenerationInputs(vertices: seq<Vec3>, k: nat, q: Vec3, divergence: real, m: MathLib)
  {
    && (Length(q, m) != 0.0 ==> k < |vertices|)
    && divergence + Epsilon != 0.0
  }

  /**
   * The record at rift vertex p after the event, from the record it had
   * before: oceanic, at most 10 below sea level; an oceanic record keeps its
   * thickness and flag and never grows older, any other is replaced by rifting
   * crust 1000 thick.
   */
  function GeneratedRecord(before: Option<Crust>, p: Vec3, q: Vec3, boundary: Vec3,
                           divergence: real, m: MathLib): (c: Crust)
    requires Lawful(m) && divergence + Epsilon != 0.0
    ensures c.OceanicCrust? && c.elevation <= Ceiling
    ensures before.Some? && before.value.OceanicCrust? ==>
      && c.age <= before.value.age
      && c.thickness == before.value.thickness
      && c.rifting == before.value.rifting
    ensures !(before.Some? && before.value.OceanicCrust?) ==> c.thickness == 1000.0 && c.rifting
  {
    var dGamma := Length(Sub(p, q), m);
    var dP := Length(Sub(p, boundary), m);
    LengthNonNegative(Sub(p, q), m);
    LengthNonNegative(Sub(p, boundary), m);
    var zBar := if before.Some? then before.value.elevation else 0.0;
    var e := NewElevation(dGamma, dP, zBar, m);
    var dir := RidgeDirection(p, q, m);
    var age := dGamma / (divergence + Epsilon);
    if before.Some? && before.value.OceanicCrust? then
      before.value.(elevation := e, age := Min(before.value.age, age), ridgeDir := dir)
    else
      OceanicCrust(NewThickness(e), e, age, dir, true)
  }

  /** The crust records after crustGeneration::triggerEvent. */
  function Generated(crust: seq<Option<Crust>>, vertices: seq<Vec3>, k: nat, q: Vec3, boundary: Vec3,
                     divergence: real, m: MathLib): (r: seq<Option<Crust>>)
    requires Lawful(m) && GenerationInputs(vertices, k, q, divergence, m)
  {
    if Length(q, m) == 0.0 || k >= |crust| then crust
    else crust[k := Some(GeneratedRecord(crust[k], vertices[k], q, boundary, divergence, m))]
  }

  /**
   * Only record k changes, and only when q is not the zero vector and k is in
   * range; then it is the record GeneratedRecord describes.
   */
  lemma GeneratedEffects(crust: seq<Option<Crust>>, vertices: seq<Vec3>, k: nat, q: Vec3, boundary: Vec3,
                         divergence: real, m: MathLib)
    requires Lawful(m) && GenerationInputs(vertices, k, q, divergence, m)
    ensures var r := Generated(crust, vertices, k, q, boundary, divergence, m);
      && |r| == |crust|
      && (forall i :: 0 <= i < |crust| && i != k ==> r[i] == crust[i])
      && (q == Zero || k >= |crust| ==> r == crust)
      && (q != Zero && k < |crust| ==>
            && r[k].Some? && r[k].value.OceanicCrust? && r[k].value.elevation <= Ceiling
            && (crust[k].Some? && crust[k].value.OceanicCrust? ==>
                  && r[k].value.age <= crust[k].value.age
                  && r[k].value.thickness == crust[k].value.thickness
                  && r[k].value.rifting == crust[k].value.rifting)
            && (!(crust[k].Some? && crust[k].value.OceanicCrust?) ==>
                  r[k].value.thickness == 1000.0 && r[k].value.rifting))
  {
    LengthZero(q, m);
  }

  /** crustGeneration::triggerEvent at the rift vertex of ph. */
  method TriggerCrustGeneration(planet: Planet, ph: Phenomenon, q: Vec3, boundary: Vec3, m: MathLib)
    requires ph.Rifting? && Lawful(m) && GenerationInputs(planet.vertices, ph.vertex, q, ph.divergence, m)
    modifies planet`crustData
    ensures planet.crustData == Generated(old(planet.crustData), planet.vertices, ph.vertex, q, boundary, ph.divergence, m)
  {
    if Length(q, m) == 0.0 {
      return;
    }
    var k := ph.vertex;
    var p := planet.vertices[k];
    var dGamma := Length(Sub(p, q), m);
    var dP := Length(Sub(p, boundary), m);
    LengthNonNegative(Sub(p, q), m);
    LengthNonNegative(Sub(p, boundary), m);
    var zBar := 0.0;
    if k < |planet.crustData| && planet.crustData[k].Some? {
      zBar := planet.crustData[k].value.elevation;
    }
    var e := NewElevation(dGamma, dP, zBar, m);
    var dir := RidgeDirection(p, q, m);
    var age := dGamma / (ph.divergence + Epsilon);
    if k < |planet.crustData| {
      if planet.crustData[k].Some? && planet.crustData[k].value.OceanicCrust? {
        var c := planet.crustData[k].value;
        planet.crustData := planet.crustData[k := Some(c.(elevation := e, age := Min(c.age, age), ridgeDir := dir))];
      } else {
        planet.crustData := planet.crustData[k := Some(OceanicCrust(NewThickness(e), e, age, dir, true))];
      }
    }
  }
}
