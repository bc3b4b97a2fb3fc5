/**
 * The vehicle step as pure functions on a `Car` value: the value is the whole
 * state the `MyVehicle` methods read and write (the mutable `Vehicle` class
 * in module Vehicles is specified by these functions).
 */
module Kinematics {
  import opened Basics

  /** Speed change of one accelerate or brake call. */
  const SpeedStep: real := 0.01
  const DefaultMaxSpeed: real := 0.4
  const DefaultMinSpeed: real := -0.2
  /** Number of updates a turn intent lasts. */
  const TurnBudget: int := 8
  /** Distance each axis is pushed by a collision. */
  const AvoidanceDistance: real := 1.5
  const SpeedBoost: real := 1.7
  const SlowFactor: real := 0.4
  const PortalX: real := -65.0
  const PortalZ: real := 30.0

  /**
   * Everything a vehicle's step logic reads or writes. `x`/`z` is the group
   * position, `rotationY` the group's rotation about y, `wheelTurn` the
   * front wheels' rotation about y (radians).
   */
  datatype Car = Car(
    model: string,
    x: real, z: real,
    speed: real, angle: real,
    angleOffset: int, left: bool, right: bool,
    offTrack: bool,
    specialEffect: Option<string>, specialEffectTimer: nat,
    laps: nat,
    maxSpeed: real, minSpeed: real,
    dizzy: bool, block: bool,
    rotationY: real, wheelTurn: real)

  /**
   * The turn intent invariant: at most one direction is set, and a direction
   * is set exactly while budget is left, with the budget in [0, 8].
   */
  predicate TurnOk(c: Car) {
    !(c.left && c.right)
    && 0 <= c.angleOffset <= TurnBudget
    && ((c.left || c.right) <==> c.angleOffset > 0)
  }

  /** The effect invariant: a running timer always belongs to a known kind. */
  predicate EffectOk(c: Car) {
    c.specialEffectTimer > 0 ==> c.specialEffect.Some? && KnownEffect(c.specialEffect.value)
  }

  /** The MyVehicle constructor (position set to (x, z), everything at rest). */
  function NewCar(model: string, x: real, z: real): (c: Car)
    ensures c.model == model && c.x == x && c.z == z
    ensures c.speed == 0.0 && c.angle == 0.0 && c.laps == 0
    ensures !c.left && !c.right && c.angleOffset == 0
    ensures c.specialEffect == None && c.specialEffectTimer == 0
    ensures c.maxSpeed == DefaultMaxSpeed && c.minSpeed == DefaultMinSpeed
    ensures !c.dizzy && !c.block && !c.offTrack
    ensures TurnOk(c) && EffectOk(c)
  {
    Car(model, x, z, 0.0, 0.0, 0, false, false, false, None, 0, 0,
        DefaultMaxSpeed, DefaultMinSpeed, false, false, 0.0, 0.0)
  }

  /** `accelerate`: a guarded step, not a clamp. */
  function Accelerate(c: Car): (r: Car)
    ensures r == c.(speed := r.speed)
    ensures c.speed < c.maxSpeed ==> r.speed == c.speed + SpeedStep
    ensures c.speed >= c.maxSpeed ==> r.speed == c.speed
    ensures c.speed <= c.maxSpeed ==> r.speed < c.maxSpeed + SpeedStep
  {
    if c.speed < c.maxSpeed then c.(speed := c.speed + SpeedStep) else c
  }

  /** `brake`: a guarded step down, not a clamp. */
  function Brake(c: Car): (r: Car)
    ensures r == c.(speed := r.speed)
    ensures c.speed > c.minSpeed ==> r.speed == c.speed - SpeedStep
    ensures c.speed <= c.minSpeed ==> r.speed == c.speed
    ensures c.speed >= c.minSpeed ==> r.speed > c.minSpeed - SpeedStep
  {
    if c.speed > c.minSpeed then c.(speed := c.speed - SpeedStep) else c
  }

  /** `turnLeft`: left intent on, right off, full budget. */
  function TurnLeft(c: Car): (r: Car)
    ensures r.left && !r.right && r.angleOffset == TurnBudget
    ensures r == c.(left := true, right := false, angleOffset := TurnBudget)
    ensures TurnOk(r)
  {
    c.(left := true, right := false, angleOffset := TurnBudget)
  }

  /** `turnRight`: right intent on, left off, full budget. */
  function TurnRight(c: Car): (r: Car)
    ensures r.right && !r.left && r.angleOffset == TurnBudget
    ensures r == c.(left := false, right := true, angleOffset := TurnBudget)
    ensures TurnOk(r)
  {
    c.(left := false, right := true, angleOffset := TurnBudget)
  }

  /**
   * The front wheels' rotation set by `turnWheels`: 6 * (10 - angleOffset)
   * degrees towards the intent, so the wheels straighten gradually as the
   * budget runs out; zero without an intent. Left wins if both were set.
   */
  function WheelTurn(left: bool, right: bool, angleOffset: int): (w: real)
    ensures !left && !right ==> w == 0.0
    ensures left ==> w == DegToRad(6.0 * (10 - angleOffset) as real)
    ensures !left && right ==> w == DegToRad(-6.0 * (10 - angleOffset) as real)
    ensures left && angleOffset < 10 ==> w > 0.0
    ensures !left && right && angleOffset < 10 ==> w < 0.0
  {
    if !left && !right then 0.0
    else if left then DegToRad(6.0 * (10 - angleOffset) as real)
    else DegToRad(-6.0 * (10 - angleOffset) as real)
  }

  /** `turnWheels`: only the wheel rotation changes. */
  function TurnWheels(c: Car): (r: Car)
    ensures r == c.(wheelTurn := WheelTurn(c.left, c.right, c.angleOffset))
  {
    c.(wheelTurn := WheelTurn(c.left, c.right, c.angleOffset))
  }

  /** `checkCollision`: the strict axis-aligned box of half-width 1. */
  predicate Near(c: Car, x: real, z: real) {
    Abs(c.x - x) < 1.0 && Abs(c.z - z) < 1.0
  }

  /** The proximity test does not depend on which car asks. */
  lemma NearSymmetric(a: Car, b: Car)
    ensures Near(a, b.x, b.z) <==> Near(b, a.x, a.z)
  {
    assert Abs(a.x - b.x) == Abs(b.x - a.x);
    assert Abs(a.z - b.z) == Abs(b.z - a.z);
  }

  /** The axis move of `collide`: away from the other point, +1.5 on a tie. */
  function AwayFrom(mine: real, other: real): (d: real)
    ensures mine < other ==> d == -AvoidanceDistance
    ensures mine >= other ==> d == AvoidanceDistance
    ensures Abs(mine + d - other) == Abs(mine - other) + AvoidanceDistance
  {
    if mine < other then -AvoidanceDistance else AvoidanceDistance
  }

  /**
   * `collide`: push each axis 1.5 away from (x, z), turn by 30 degrees,
   * align the body with the heading and reset the wheels. Speed, intents,
   * effects and counters are untouched.
   */
  function Collide(c: Car, x: real, z: real): (r: Car)
    ensures Abs(r.x - x) == Abs(c.x - x) + AvoidanceDistance
    ensures Abs(r.z - z) == Abs(c.z - z) + AvoidanceDistance
    ensures Abs(r.x - c.x) == AvoidanceDistance && Abs(r.z - c.z) == AvoidanceDistance
    ensures (c.x < x ==> r.x < c.x) && (c.x >= x ==> r.x > c.x)
    ensures (c.z < z ==> r.z < c.z) && (c.z >= z ==> r.z > c.z)
    ensures r.angle == c.angle + DegToRad(30.0) && r.rotationY == r.angle
    ensures r == c.(x := r.x, z := r.z, angle := r.angle, rotationY := r.angle,
                    wheelTurn := WheelTurn(c.left, c.right, c.angleOffset))
    ensures !Near(r, x, z)
  {
    var a := c.angle + DegToRad(30.0);
    c.(x := c.x + AwayFrom(c.x, x), z := c.z + AwayFrom(c.z, z),
       angle := a, rotationY := a,
       wheelTurn := WheelTurn(c.left, c.right, c.angleOffset))
  }

  /** The timer values at which an effect kind acts; on other ticks it only counts down. */
  predicate TriggerTick(kind: string, t: nat) {
    (kind == SpeedEffect && (t == 1 || t == 100))
    || (kind == PortalEffect && t == 10)
    || (kind == DizzyEffect && (t == 1 || t == 200))
    || (kind == BlockEffect && (t == 100 || t == 250))
    || (kind == SlowEffect && (t == 1 || t == 200))
  }

  /** An effect is running: a positive timer on a kind the switch handles. */
  predicate Running(c: Car) {
    c.specialEffectTimer > 0 && c.specialEffect.Some? && KnownEffect(c.specialEffect.value)
  }

  /**
   * What an effect tick never touches: the kind, the steering intent and its
   * budget, the lap counter, the off-track flag and the model.
   */
  predicate EffectFrame(c: Car, r: Car) {
    r.specialEffect == c.specialEffect
    && r.left == c.left && r.right == c.right && r.angleOffset == c.angleOffset
    && r.laps == c.laps && r.offTrack == c.offTrack && r.model == c.model
  }

  /**
   * `applySpecialEffect`: one tick of the running effect. The timer drops by
   * exactly one, the kind is never cleared, steering is never touched, and
   * the kind's own tick function (below) applies its fixed trigger ticks.
   */
  function ApplyEffect(c: Car): (r: Car)
    ensures EffectFrame(c, r)
    ensures !Running(c) ==> r == c
    ensures Running(c) ==> r.specialEffectTimer == c.specialEffectTimer - 1
    ensures Running(c) && c.specialEffect.value == SpeedEffect ==> r == SpeedTick(c)
    ensures Running(c) && c.specialEffect.value == PortalEffect ==> r == PortalTick(c)
    ensures Running(c) && c.specialEffect.value == DizzyEffect ==> r == DizzyTick(c)
    ensures Running(c) && c.specialEffect.value == BlockEffect ==> r == BlockTick(c)
    ensures Running(c) && c.specialEffect.value == SlowEffect ==> r == SlowTick(c)
    ensures TurnOk(c) ==> TurnOk(r)
    ensures EffectOk(c) ==> EffectOk(r)
  {
    if c.specialEffectTimer == 0 || c.specialEffect.None? then c
    else
      var kind := c.specialEffect.value;
      if kind == SpeedEffect then SpeedTick(c)
      else if kind == PortalEffect then PortalTick(c)
      else if kind == DizzyEffect then DizzyTick(c)
      else if kind == BlockEffect then BlockTick(c)
      else if kind == SlowEffect then SlowTick(c)
      else c
  }

  /** One tick of a running Speed effect. */
  function SpeedTick(c: Car): (r: Car)
    requires c.specialEffectTimer > 0
    ensures EffectFrame(c, r) && r.specialEffectTimer == c.specialEffectTimer - 1
    ensures c.specialEffectTimer == 100 ==>
              r == c.(speed := c.maxSpeed * SpeedBoost, angle := 0.0, rotationY := 0.0,
                      wheelTurn := WheelTurn(c.left, c.right, c.angleOffset),
                      specialEffectTimer := 99)
    ensures c.specialEffectTimer == 1 ==> r == c.(speed := c.maxSpeed, specialEffectTimer := 0)
    ensures c.specialEffectTimer != 1 && c.specialEffectTimer != 100 ==>
              r == c.(specialEffectTimer := c.specialEffectTimer - 1)
  {
    var t := c.specialEffectTimer;
    var d := c.(specialEffectTimer := t - 1);
    if t - 1 == 0 then d.(speed := c.maxSpeed)
    else if t == 100 then
      d.(speed := c.maxSpeed * SpeedBoost, angle := 0.0, rotationY := 0.0,
         wheelTurn := WheelTurn(c.left, c.right, c.angleOffset))
    else d
  }

  /** One tick of a running Portal effect. */
  function PortalTick(c: Car): (r: Car)
    requires c.specialEffectTimer > 0
    ensures EffectFrame(c, r) && r.specialEffectTimer == c.specialEffectTimer - 1
    ensures c.specialEffectTimer == 10 ==>
              r == c.(x := PortalX, z := PortalZ, angle := DegToRad(200.0),
                      rotationY := DegToRad(200.0),
                      wheelTurn := WheelTurn(c.left, c.right, c.angleOffset),
                      specialEffectTimer := 9)
    ensures c.specialEffectTimer != 10 ==> r == c.(specialEffectTimer := c.specialEffectTimer - 1)
  {
    var t := c.specialEffectTimer;
    var d := c.(specialEffectTimer := t - 1);
    if t == 10 then
      d.(x := PortalX, z := PortalZ, angle := DegToRad(200.0),
         rotationY := DegToRad(200.0),
         wheelTurn := WheelTurn(c.left, c.right, c.angleOffset))
    else d
  }

  /** One tick of a running Dizzy effect. */
  function DizzyTick(c: Car): (r: Car)
    requires c.specialEffectTimer > 0
    ensures EffectFrame(c, r) && r.specialEffectTimer == c.specialEffectTimer - 1
    ensures c.specialEffectTimer == 200 ==> r == c.(dizzy := true, specialEffectTimer := 199)
    ensures c.specialEffectTimer == 1 ==> r == c.(dizzy := false, specialEffectTimer := 0)
    ensures c.specialEffectTimer != 1 && c.specialEffectTimer != 200 ==>
              r == c.(specialEffectTimer := c.specialEffectTimer - 1)
  {
    var t := c.specialEffectTimer;
    var d := c.(specialEffectTimer := t - 1);
    if t - 1 == 0 then d.(dizzy := false)
    else if t == 200 then d.(dizzy := true)
    else d
  }

  /** One tick of a running Block effect. */
  function BlockTick(c: Car): (r: Car)
    requires c.specialEffectTimer > 0
    ensures EffectFrame(c, r) && r.specialEffectTimer == c.specialEffectTimer - 1
    ensures c.specialEffectTimer == 250 ==> r == c.(block := true, specialEffectTimer := 249)
    ensures c.specialEffectTimer == 100 ==> r == c.(block := false, specialEffectTimer := 99)
    ensures c.specialEffectTimer != 100 && c.specialEffectTimer != 250 ==>
              r == c.(specialEffectTimer := c.specialEffectTimer - 1)
  {
    var t := c.specialEffectTimer;
    var d := c.(specialEffectTimer := t - 1);
    if t == 100 then d.(block := false)
    else if t == 250 then d.(block := true)
    else d
  }

  /** One tick of a running Slow effect. */
  function SlowTick(c: Car): (r: Car)
    requires c.specialEffectTimer > 0
    ensures EffectFrame(c, r) && r.specialEffectTimer == c.specialEffectTimer - 1
    ensures c.specialEffectTimer == 200 ==>
              r == c.(speed := c.speed * SlowFactor, maxSpeed := c.maxSpeed * SlowFactor,
                      minSpeed := c.minSpeed * SlowFactor, specialEffectTimer := 199)
    ensures c.specialEffectTimer == 1 ==>
              r == c.(maxSpeed := DefaultMaxSpeed, minSpeed := DefaultMinSpeed,
                      specialEffectTimer := 0)
    ensures c.specialEffectTimer != 1 && c.specialEffectTimer != 200 ==>
              r == c.(specialEffectTimer := c.specialEffectTimer - 1)
  {
    var t := c.specialEffectTimer;
    var d := c.(specialEffectTimer := t - 1);
    if t - 1 == 0 then d.(maxSpeed := DefaultMaxSpeed, minSpeed := DefaultMinSpeed)
    else if t == 200 then
      d.(speed := c.speed * SlowFactor, maxSpeed := c.maxSpeed * SlowFactor,
         minSpeed := c.minSpeed * SlowFactor)
    else d
  }

  /** Off its trigger ticks, an effect tick only counts the timer down. */
  lemma QuietTick(c: Car)
    requires Running(c) && !TriggerTick(c.specialEffect.value, c.specialEffectTimer)
    ensures ApplyEffect(c) == c.(specialEffectTimer := c.specialEffectTimer - 1)
  {
    var kind := c.specialEffect.value;
    if kind == SpeedEffect {
      assert ApplyEffect(c) == SpeedTick(c);
    } else if kind == PortalEffect {
      assert ApplyEffect(c) == PortalTick(c);
    } else if kind == DizzyEffect {
      assert ApplyEffect(c) == DizzyTick(c);
    } else if kind == BlockEffect {
      assert ApplyEffect(c) == BlockTick(c);
    } else {
      assert ApplyEffect(c) == SlowTick(c);
    }
  }

  /**
   * The movement half of `update`: integrate the position along the heading,
   * wrap the heading with JavaScript's `%`, then spend one tick of the turn
   * budget turning 10 * speed degrees (right before left).
   */
  function Move(c: Car, trig: Trig): (r: Car)
    ensures r.x == c.x - c.speed * trig.sin(c.angle)
    ensures r.z == c.z - c.speed * trig.cos(c.angle)
    ensures r.speed == c.speed && r.maxSpeed == c.maxSpeed && r.minSpeed == c.minSpeed
    ensures r.specialEffect == c.specialEffect && r.specialEffectTimer == c.specialEffectTimer
    ensures r.dizzy == c.dizzy && r.block == c.block && r.laps == c.laps
    ensures r.offTrack == c.offTrack && r.model == c.model
    ensures c.right ==>
              r.angle == TurnRem(c.angle) - DegToRad(10.0 * c.speed)
              && r.angleOffset == c.angleOffset - 1
              && r.right == (c.angleOffset != 1) && r.left == c.left
              && r.rotationY == r.angle
    ensures !c.right && c.left ==>
              r.angle == TurnRem(c.angle) + DegToRad(10.0 * c.speed)
              && r.angleOffset == c.angleOffset - 1
              && r.left == (c.angleOffset != 1) && !r.right
              && r.rotationY == r.angle
    ensures !c.right && !c.left ==>
              r.angle == TurnRem(c.angle) && r.angleOffset == c.angleOffset
              && !r.left && !r.right && r.rotationY == c.rotationY && r.wheelTurn == c.wheelTurn
    ensures (c.left || c.right) ==> r.wheelTurn == WheelTurn(r.left, r.right, r.angleOffset)
    ensures TurnOk(c) ==> TurnOk(r)
    ensures EffectOk(c) ==> EffectOk(r)
  {
    var p := Advance(c, trig);
    var value := 10.0 * c.speed;
    if c.right then SpendTurnBudget(p.(angle := p.angle - DegToRad(value)))
    else if c.left then SpendTurnBudget(p.(angle := p.angle + DegToRad(value)))
    else p
  }

  /** Integration along the heading and the `%` wrap of the heading. */
  function Advance(c: Car, trig: Trig): (r: Car)
    ensures r.x == c.x - c.speed * trig.sin(c.angle)
    ensures r.z == c.z - c.speed * trig.cos(c.angle)
    ensures r.angle == TurnRem(c.angle)
    ensures -2.0 * Pi < r.angle < 2.0 * Pi
    ensures r == c.(x := r.x, z := r.z, angle := r.angle)
  {
    c.(x := c.x - c.speed * trig.sin(c.angle),
       z := c.z - c.speed * trig.cos(c.angle),
       angle := TurnRem(c.angle))
  }

  /**
   * The budget bookkeeping of a turning tick: one tick less, the intent
   * (right checked first) dropped when the budget reaches 0, the body aligned
   * with the heading and the wheels set.
   */
  function SpendTurnBudget(c: Car): (r: Car)
    requires c.left || c.right
    ensures r.angleOffset == c.angleOffset - 1
    ensures c.right ==> r.right == (c.angleOffset != 1) && r.left == c.left
    ensures !c.right ==> r.left == (c.angleOffset != 1) && !r.right
    ensures r == c.(angleOffset := r.angleOffset, left := r.left, right := r.right,
                    rotationY := c.angle, wheelTurn := WheelTurn(r.left, r.right, r.angleOffset))
  {
    var off := c.angleOffset - 1;
    var q := if c.right then c.(angleOffset := off, right := off != 0)
             else c.(angleOffset := off, left := off != 0);
    q.(rotationY := q.angle, wheelTurn := WheelTurn(q.left, q.right, q.angleOffset))
  }

  /**
   * `update`: the effect tick first; a car blocked after it does not move or
   * turn at all, otherwise it moves.
   */
  function Update(c: Car, trig: Trig): (r: Car)
    ensures ApplyEffect(c).block ==> r == ApplyEffect(c)
    ensures !ApplyEffect(c).block ==> r == Move(ApplyEffect(c), trig)
    ensures ApplyEffect(c).block ==>
              r.left == c.left && r.right == c.right && r.angleOffset == c.angleOffset
    ensures ApplyEffect(c).block && c.specialEffect == Some(BlockEffect) ==>
              r.x == c.x && r.z == c.z && r.angle == c.angle && r.speed == c.speed
    ensures r.specialEffect == c.specialEffect
    ensures TurnOk(c) ==> TurnOk(r)
    ensures EffectOk(c) ==> EffectOk(r)
  {
    var e := ApplyEffect(c);
    if e.block then e else Move(e, trig)
  }

  // ---------------------------------------------------------------------------
  // Several ticks

  /** n movement ticks. */
  function MoveN(c: Car, trig: Trig, n: nat): (r: Car)
    decreases n
  {
    if n == 0 then c else MoveN(Move(c, trig), trig, n - 1)
  }

  /**
   * A turn intent with k ticks of budget left lasts exactly k movement ticks:
   * it is still set, with k - j left, after j < k of them, and cleared with a
   * zero budget after k.
   */
  lemma {:induction false} TurnLasts(c: Car, trig: Trig, j: nat)
    requires TurnOk(c) && (c.left || c.right) && j <= c.angleOffset
    ensures MoveN(c, trig, j).angleOffset == c.angleOffset - j
    ensures j < c.angleOffset ==>
              MoveN(c, trig, j).left == c.left && MoveN(c, trig, j).right == c.right
    ensures j == c.angleOffset ==> !MoveN(c, trig, j).left && !MoveN(c, trig, j).right
    decreases j
  {
    if j > 0 {
      var m := Move(c, trig);
      if c.angleOffset > 1 {
        TurnLasts(m, trig, j - 1);
      } else {
        assert j == 1;
        assert MoveN(c, trig, j) == MoveN(m, trig, 0);
      }
    }
  }

  /** After `turnLeft`, the left intent lasts exactly 8 movement ticks. */
  lemma TurnLeftLastsEight(c: Car, trig: Trig)
    ensures MoveN(TurnLeft(c), trig, 7).left
    ensures !MoveN(TurnLeft(c), trig, 8).left && !MoveN(TurnLeft(c), trig, 8).right
    ensures MoveN(TurnLeft(c), trig, 8).angleOffset == 0
  {
    TurnLasts(TurnLeft(c), trig, 7);
    TurnLasts(TurnLeft(c), trig, 8);
  }

  /** After `turnRight`, the right intent lasts exactly 8 movement ticks. */
  lemma TurnRightLastsEight(c: Car, trig: Trig)
    ensures MoveN(TurnRight(c), trig, 7).right
    ensures !MoveN(TurnRight(c), trig, 8).left && !MoveN(TurnRight(c), trig, 8).right
    ensures MoveN(TurnRight(c), trig, 8).angleOffset == 0
  {
    TurnLasts(TurnRight(c), trig, 7);
    TurnLasts(TurnRight(c), trig, 8);
  }

  /** n effect ticks. */
  function EffectN(c: Car, n: nat): (r: Car)
    decreases n
  {
    if n == 0 then c else EffectN(ApplyEffect(c), n - 1)
  }

  /** The last of n + 1 effect ticks is one effect tick after the first n. */
  lemma {:induction false} EffectNLast(c: Car, n: nat)
    ensures EffectN(c, n + 1) == ApplyEffect(EffectN(c, n))
    decreases n
  {
    if n > 0 {
      EffectNLast(ApplyEffect(c), n - 1);
    }
  }

  /**
   * Between trigger ticks an effect only counts down: n ticks with no trigger
   * tick among the timer values passed change nothing but the timer.
   */
  lemma {:induction false} QuietTicks(c: Car, n: nat)
    requires c.specialEffect.Some? && KnownEffect(c.specialEffect.value)
    requires n <= c.specialEffectTimer
    requires forall t :: c.specialEffectTimer - n < t <= c.specialEffectTimer ==>
               !TriggerTick(c.specialEffect.value, t)
    ensures EffectN(c, n) == c.(specialEffectTimer := c.specialEffectTimer - n)
    decreases n
  {
    if n > 0 {
      assert !TriggerTick(c.specialEffect.value, c.specialEffectTimer);
      QuietTick(c);
      var d := ApplyEffect(c);
      QuietTicks(d, n - 1);
    }
  }

  /**
   * A running effect expires after as many ticks as its timer shows, and
   * from then on the effect tick changes nothing.
   */
  lemma {:induction false} EffectExpires(c: Car)
    requires EffectOk(c)
    ensures EffectN(c, c.specialEffectTimer).specialEffectTimer == 0
    ensures EffectN(c, c.specialEffectTimer).specialEffect == c.specialEffect
    ensures ApplyEffect(EffectN(c, c.specialEffectTimer)) == EffectN(c, c.specialEffectTimer)
    decreases c.specialEffectTimer
  {
    if c.specialEffectTimer > 0 {
      EffectExpires(ApplyEffect(c));
    }
  }

  /**
   * A Block picked up with timer 250 freezes the car for exactly 150 ticks:
   * blocked after each of ticks 1..150, free again after tick 151.
   */
  lemma BlockWindow(c: Car)
    requires c.specialEffect == Some(BlockEffect) && c.specialEffectTimer == 250
    ensures forall j :: 1 <= j <= 150 ==> EffectN(c, j).block
    ensures !EffectN(c, 151).block
    ensures EffectN(c, 151).specialEffectTimer == 99
  {
    var c1 := ApplyEffect(c);
    assert c1 == c.(block := true, specialEffectTimer := 249);
    forall j | 1 <= j <= 150
      ensures EffectN(c, j).block
    {
      QuietTicks(c1, j - 1);
    }
    QuietTicks(c1, 149);
    EffectNLast(c1, 149);
  }

  /**
   * A Dizzy picked up with timer 200 inverts the steering keys for exactly
   * 199 ticks and is over after tick 200.
   */
  lemma DizzyWindow(c: Car)
    requires c.specialEffect == Some(DizzyEffect) && c.specialEffectTimer == 200
    ensures forall j :: 1 <= j <= 199 ==> EffectN(c, j).dizzy
    ensures !EffectN(c, 200).dizzy && EffectN(c, 200).specialEffectTimer == 0
  {
    var c1 := ApplyEffect(c);
    assert c1 == c.(dizzy := true, specialEffectTimer := 199);
    forall j | 1 <= j <= 199
      ensures EffectN(c, j).dizzy
    {
      QuietTicks(c1, j - 1);
    }
    QuietTicks(c1, 198);
    EffectNLast(c1, 198);
  }

  /**
   * A Slow picked up with timer 200 keeps the speed limits at 0.4 of their
   * values until tick 199 and restores the defaults at tick 200; the speed
   * itself is scaled once and never restored.
   */
  lemma SlowWindow(c: Car)
    requires c.specialEffect == Some(SlowEffect) && c.specialEffectTimer == 200
    ensures EffectN(c, 199).maxSpeed == c.maxSpeed * SlowFactor
    ensures EffectN(c, 199).minSpeed == c.minSpeed * SlowFactor
    ensures EffectN(c, 200).maxSpeed == DefaultMaxSpeed
    ensures EffectN(c, 200).minSpeed == DefaultMinSpeed
    ensures EffectN(c, 200).speed == c.speed * SlowFactor
  {
    var c1 := ApplyEffect(c);
    QuietTicks(c1, 198);
    EffectNLast(c1, 198);
  }

  /**
   * A Speed picked up with timer 100 launches the car at 1.7 times its top
   * speed, heading 0, and leaves it at its top speed after tick 100 (when no
   * key touches the speed meanwhile).
   */
  lemma SpeedWindow(c: Car)
    requires c.specialEffect == Some(SpeedEffect) && c.specialEffectTimer == 100
    ensures EffectN(c, 1).speed == c.maxSpeed * SpeedBoost && EffectN(c, 1).angle == 0.0
    ensures EffectN(c, 100).speed == c.maxSpeed && EffectN(c, 100).specialEffectTimer == 0
  {
    var c1 := ApplyEffect(c);
    QuietTicks(c1, 98);
    EffectNLast(c1, 98);
  }
}
