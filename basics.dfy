/**
 * Shared vocabulary of the race simulation: optional values, points in the
 * scene, the effect kinds, and the few numeric helpers the JavaScript code
 * takes from `Math` and `THREE.MathUtils`.
 */
module Basics {

  datatype Option<+T> = None | Some(value: T)

  /** A position in the scene (three.js `Vector3`). */
  datatype Point3 = Point3(x: real, y: real, z: real)

  /** `Math.PI`, written as the decimal that the double prints as. */
  const Pi: real := 3.141592653589793

  /** The special-effect kinds, as the strings the game stores. */
  const SpeedEffect: string := "Speed"
  const PortalEffect: string := "Portal"
  const DizzyEffect: string := "Dizzy"
  const BlockEffect: string := "Block"
  const SlowEffect: string := "Slow"

  /** The kinds that the vehicle's effect step knows how to run. */
  predicate KnownEffect(kind: string) {
    kind == SpeedEffect || kind == PortalEffect || kind == DizzyEffect
    || kind == BlockEffect || kind == SlowEffect
  }

  function Abs(r: real): (a: real)
    ensures a >= 0.0 && (a == r || a == -r)
  {
    if r < 0.0 then -r else r
  }

  /** `THREE.MathUtils.degToRad`: degrees times Pi / 180. */
  function DegToRad(deg: real): (rad: real)
    ensures deg > 0.0 ==> rad > 0.0
    ensures deg < 0.0 ==> rad < 0.0
    ensures deg == 0.0 ==> rad == 0.0
  {
    deg * (Pi / 180.0)
  }

  /**
   * JavaScript's `angle % (2 * Math.PI)`: the quotient is truncated toward
   * zero, so the remainder has the sign of the dividend and lies strictly
   * inside one turn either way. The divisor is written as the literal that
   * the double `2 * Math.PI` prints as.
   */
  function TurnRem(a: real): (r: real)
    ensures a >= 0.0 ==> 0.0 <= r < 2.0 * Pi
    ensures a <= 0.0 ==> -(2.0 * Pi) < r <= 0.0
    ensures 0.0 <= a < 2.0 * Pi ==> r == a
  {
    var q := a / 6.283185307179586;
    var t := if q >= 0.0 then q.Floor else -((-q).Floor);
    a - 6.283185307179586 * t as real
  }

  /**
   * The trigonometry the vehicle integrator calls (`Math.sin`, `Math.cos`).
   * The model does not compute them: every step that needs them takes them
   * as given functions.
   */
  datatype Trig = Trig(sin: real -> real, cos: real -> real)
}
