/**
 * Obstacles: the kind picks the effect duration once, in the constructor;
 * afterwards only the mesh spins, a little on every gameplay tick.
 */
module Obstacles {
  import opened Basics

  /** How far the mesh turns about y on each update. */
  const SpinStep: real := 0.01

  /** The kind-to-duration switch of `buildObstacle` (0 for an unknown kind). */
  function ObstacleDuration(kind: string): (d: nat)
    ensures kind == DizzyEffect ==> d == 200
    ensures kind == BlockEffect ==> d == 250
    ensures kind == SlowEffect ==> d == 200
    ensures d > 0 <==> kind == DizzyEffect || kind == BlockEffect || kind == SlowEffect
    ensures d > 0 ==> KnownEffect(kind)
  {
    if kind == DizzyEffect then 200
    else if kind == BlockEffect then 250
    else if kind == SlowEffect then 200
    else 0
  }

  /**
   * What the game reads of an obstacle: its kind, its duration, where its
   * mesh sits, and how far the mesh has spun since it was built.
   */
  datatype ObstacleState = ObstacleState(kind: string, duration: nat, mesh: Point3, spin: real)

  class Obstacle {
    const kind: string
    const x: real
    const y: real
    const z: real
    const duration: nat
    /** The mesh position. */
    const mesh: Point3
    /** The mesh's rotation about y, counted from where construction left it. */
    var spin: real

    function View(): (o: ObstacleState)
      reads this
      ensures o.kind == kind && o.duration == duration && o.mesh == mesh && o.spin == spin
    {
      ObstacleState(kind, duration, mesh, spin)
    }

    /**
     * The MyObstacle constructor: the kind is kept verbatim and the mesh
     * sits one unit above (x, y, z), so collision tests see x and z.
     */
    constructor(kind: string, x: real, y: real, z: real)
      ensures this.kind == kind && this.x == x && this.y == y && this.z == z
      ensures duration == ObstacleDuration(kind)
      ensures mesh == Point3(x, y + 1.0, z)
      ensures spin == 0.0
    {
      this.kind := kind;
      this.x := x;
      this.y := y;
      this.z := z;
      duration := ObstacleDuration(kind);
      mesh := Point3(x, y + 1.0, z);
      spin := 0.0;
    }

    /** `update`: the mesh turns by 0.01 and nothing else changes. */
    method Update()
      modifies this
      ensures spin == old(spin) + SpinStep
      ensures View() == old(View()).(spin := old(spin) + SpinStep)
    {
      spin := spin + SpinStep;
    }
  }
}
