/**
 * Crust records: one per vertex of the planet. The source has an abstract base
 * record with two subclasses told apart by a type tag and downcasts; here one
 * sum type carries both, and the tag is a function of the constructor used.
 */
module Crusts {
  import opened Geometry

  datatype CrustType = Oceanic | Continental

  /** The four orogeny kinds, numbered 0..3 in declaration order. */
  datatype OrogenyType = Collisional | Subduction | Rifting | NoneType

  /** The common fields thickness and elevation exist in both variants; the rest depend on the tag. */
  datatype Crust =
    | OceanicCrust(thickness: real, elevation: real, age: real, ridgeDir: Vec3, rifting: bool)
    | ContinentalCrust(thickness: real, elevation: real, orogenyAge: real, orogenyType: OrogenyType, foldDir: Vec3)
  {
    /** The tag stored by the base constructor. */
    function Type(): (t: CrustType)
      ensures t == Oceanic <==> this.OceanicCrust?
      ensures t == Continental <==> this.ContinentalCrust?
    {
      if this.OceanicCrust? then Oceanic else Continental
    }

    /** The same record with only its relief elevation replaced. */
    function WithElevation(e: real): (c: Crust)
      ensures c.elevation == e && c.thickness == thickness && c.Type() == Type()
      ensures c == this <==> e == elevation
    {
      this.(elevation := e)
    }
  }

  /** The four-argument oceanic constructor; it never sets the rifting flag. */
  function NewOceanic(thickness: real, elevation: real, age: real, ridgeDir: Vec3): (c: Crust)
    ensures c.Type() == Oceanic && !c.rifting
    ensures c.thickness == thickness && c.elevation == elevation && c.age == age && c.ridgeDir == ridgeDir
  {
    OceanicCrust(thickness, elevation, age, ridgeDir, false)
  }

  function NewContinental(thickness: real, elevation: real, orogenyAge: real, orogenyType: OrogenyType, foldDir: Vec3): (c: Crust)
    ensures c.Type() == Continental
    ensures c.thickness == thickness && c.elevation == elevation && c.orogenyAge == orogenyAge
    ensures c.orogenyType == orogenyType && c.foldDir == foldDir
  {
    ContinentalCrust(thickness, elevation, orogenyAge, orogenyType, foldDir)
  }

  /** The enumerator's underlying value. */
  function OrogenyIndex(t: OrogenyType): (i: nat)
    ensures i <= 3
  {
    match t
    case Collisional => 0
    case Subduction => 1
    case Rifting => 2
    case NoneType => 3
  }

  /** The cast from an integer to the enumeration, defined on the enumerators' values. */
  function OrogenyFromIndex(i: int): (t: OrogenyType)
    requires 0 <= i <= 3
    ensures OrogenyIndex(t) == i
  {
    if i == 0 then Collisional else if i == 1 then Subduction else if i == 2 then Rifting else NoneType
  }

  lemma OrogenyIndexRoundTrip(t: OrogenyType)
    ensures OrogenyFromIndex(OrogenyIndex(t)) == t
  {
  }

  function OrogenyTypeToString(t: OrogenyType): (s: string)
    ensures s != "unknown" && |s| > 0
  {
    match t
    case Collisional => "collisional"
    case Subduction => "subduction"
    case Rifting => "rifting"
    case NoneType => "none"
  }

  /** Distinct orogeny kinds have distinct names, so the name identifies the kind. */
  lemma OrogenyNamesDistinct(a: OrogenyType, b: OrogenyType)
    ensures OrogenyTypeToString(a) == OrogenyTypeToString(b) <==> a == b
  {
    if a != b {
      assert OrogenyTypeToString(a)[0] != OrogenyTypeToString(b)[0];
    }
  }
}
