/**
 * Power-ups: static hazards fixed at race setup. The constructor picks the
 * effect duration and builds the mesh from the kind; nothing changes later.
 */
module PowerUps {
  import opened Basics

  /** Ticks a power-up effect lasts, by kind (0 for any other kind). */
  const SpeedDuration: nat := 100
  const PortalDuration: nat := 10

  /**
   * A power-up. `mesh` is where its mesh sits (None when the kind builds no
   * mesh); the collision test in the game reads the mesh position.
   */
  datatype PowerUp = PowerUp(kind: string, x: real, y: real, z: real,
                             duration: nat, mesh: Option<Point3>)

  /** The MyPowerUp constructor. */
  function NewPowerUp(kind: string, x: real, y: real, z: real): (p: PowerUp)
    ensures p.kind == kind && p.x == x && p.y == y && p.z == z
    ensures kind == SpeedEffect ==> p.duration == SpeedDuration
    ensures kind == PortalEffect ==> p.duration == PortalDuration
    ensures kind != SpeedEffect && kind != PortalEffect ==> p.duration == 0 && p.mesh == None
    ensures p.mesh.Some? <==> p.duration > 0
    ensures p.duration > 0 ==> KnownEffect(kind)
    ensures p.mesh.Some? ==> p.mesh.value == Point3(x, y + 0.01, z)
  {
    if kind == SpeedEffect then
      PowerUp(kind, x, y, z, SpeedDuration, Some(Point3(x, y + 0.01, z)))
    else if kind == PortalEffect then
      PowerUp(kind, x, y, z, PortalDuration, Some(Point3(x, y + 0.01, z)))
    else
      PowerUp(kind, x, y, z, 0, None)
  }
}
