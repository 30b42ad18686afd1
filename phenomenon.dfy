/**
 * Tectonic phenomenon records. They are built once by the classifier and never
 * changed, so each record kind is a constructor of one immutable datatype; the
 * getters of the source are the destructors, and the type tag is a function of
 * the constructor.
 */
module Phenomena {

  datatype PhenomenonType = SubductionType | CollisionType | RiftingType

  datatype SubductionKind = OceanicOceanic | OceanicContinental | ContinentalContinental

  datatype Phenomenon =
    | Subduction(plateA: nat, plateB: nat, vertex: nat, under: nat, over: nat,
                 convergence: real, kind: SubductionKind, reason: string)
    | ContinentalCollision(plateA: nat, plateB: nat, vertex: nat, magnitude: real, description: string)
    | Rifting(plateA: nat, plateB: nat, vertex: nat, divergence: real, description: string)
  {
    /** The tag passed to the base constructor by each record kind. */
    function Type(): (t: PhenomenonType)
      ensures t == SubductionType <==> this.Subduction?
      ensures t == CollisionType <==> this.ContinentalCollision?
      ensures t == RiftingType <==> this.Rifting?
    {
      match this
      case Subduction(_, _, _, _, _, _, _, _) => SubductionType
      case ContinentalCollision(_, _, _, _, _) => CollisionType
      case Rifting(_, _, _, _, _) => RiftingType
    }
  }

  /** The fields every record shares, as the base constructor stores them. */
  function Base(p: Phenomenon): (nat, nat, nat)
  {
    (p.plateA, p.plateB, p.vertex)
  }
}
