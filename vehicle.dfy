/**
 * `MyVehicle` as a mutable object: each method updates the fields in place,
 * step by step as the JavaScript does, and is proved to produce exactly the
 * state the matching Kinematics function computes from the old state.
 */
module Vehicles {
  import opened Basics
  import K = Kinematics

  class Vehicle {
    const model: string
    var x: real
    var z: real
    var speed: real
    var angle: real
    var angleOffset: int
    var left: bool
    var right: bool
    var offTrack: bool
    var specialEffect: Option<string>
    var specialEffectTimer: nat
    var laps: nat
    var maxSpeed: real
    var minSpeed: real
    var dizzy: bool
    var block: bool
    var rotationY: real
    var wheelTurn: real

    /** The whole step state of this vehicle, as a value. */
    function State(): K.Car
      reads this
    {
      K.Car(model, x, z, speed, angle, angleOffset, left, right, offTrack,
            specialEffect, specialEffectTimer, laps, maxSpeed, minSpeed,
            dizzy, block, rotationY, wheelTurn)
    }

    /** The turn-intent and effect invariants. */
    predicate Valid()
      reads this
    {
      K.TurnOk(State()) && K.EffectOk(State())
    }

    constructor(model: string, x: real, z: real)
      ensures State() == K.NewCar(model, x, z)
      ensures Valid()
    {
      this.model := model;
      this.x := x;
      this.z := z;
      speed := 0.0;
      angle := 0.0;
      angleOffset := 0;
      left := false;
      right := false;
      offTrack := false;
      specialEffect := None;
      specialEffectTimer := 0;
      laps := 0;
      maxSpeed := K.DefaultMaxSpeed;
      minSpeed := K.DefaultMinSpeed;
      dizzy := false;
      block := false;
      rotationY := 0.0;
      wheelTurn := 0.0;
    }

    method Accelerate()
      modifies this
      ensures State() == K.Accelerate(old(State()))
      ensures Valid() == old(Valid())
    {
      if speed < maxSpeed {
        speed := speed + K.SpeedStep;
      }
    }

    method Brake()
      modifies this
      ensures State() == K.Brake(old(State()))
      ensures Valid() == old(Valid())
    {
      if speed > minSpeed {
        speed := speed - K.SpeedStep;
      }
    }

    method TurnLeft()
      modifies this
      ensures State() == K.TurnLeft(old(State()))
      ensures old(K.EffectOk(State())) ==> Valid()
    {
      left := true;
      right := false;
      angleOffset := K.TurnBudget;
    }

    method TurnRight()
      modifies this
      ensures State() == K.TurnRight(old(State()))
      ensures old(K.EffectOk(State())) ==> Valid()
    {
      right := true;
      left := false;
      angleOffset := K.TurnBudget;
    }

    method TurnWheels()
      modifies this
      ensures State() == K.TurnWheels(old(State()))
    {
      if !left && !right {
        wheelTurn := 0.0;
        return;
      }
      var value: real := 0.0;
      if left {
        value := 6.0 * (10 - angleOffset) as real;
      } else if right {
        value := -6.0 * (10 - angleOffset) as real;
      }
      wheelTurn := DegToRad(value);
    }

    /** Set the heading, align the body with it and set the wheels. */
    method Face(a: real)
      modifies this
      ensures State() == old(State()).(angle := a, rotationY := a,
                                        wheelTurn := K.WheelTurn(left, right, angleOffset))
    {
      angle := a;
      rotationY := angle;
      TurnWheels();
    }

    /** `checkCollision`: the strict box of half-width 1 around (x, z). */
    function CheckCollision(px: real, pz: real): (b: bool)
      reads this
      ensures b <==> Abs(x - px) < 1.0 && Abs(z - pz) < 1.0
      ensures b == K.Near(State(), px, pz)
    {
      Abs(x - px) < 1.0 && Abs(z - pz) < 1.0
    }

    method Collide(px: real, pz: real)
      modifies this
      ensures State() == K.Collide(old(State()), px, pz)
      ensures Valid() == old(Valid())
    {
      var moveX := if x < px then -K.AvoidanceDistance else K.AvoidanceDistance;
      var moveZ := if z < pz then -K.AvoidanceDistance else K.AvoidanceDistance;
      x := x + moveX;
      z := z + moveZ;
      Face(angle + DegToRad(30.0));
    }

    method ApplySpecialEffect()
      modifies this
      ensures State() == K.ApplyEffect(old(State()))
      ensures old(Valid()) ==> Valid()
    {
      if specialEffect.None? || specialEffectTimer == 0 {
        return;
      }
      var kind := specialEffect.value;
      if kind == SpeedEffect {
        SpeedTick();
      } else if kind == PortalEffect {
        PortalTick();
      } else if kind == DizzyEffect {
        DizzyTick();
      } else if kind == BlockEffect {
        BlockTick();
      } else if kind == SlowEffect {
        SlowTick();
      }
    }

    method SpeedTick()
      requires specialEffectTimer > 0
      modifies this
      ensures State() == K.SpeedTick(old(State()))
    {
      if specialEffectTimer - 1 == 0 {
        speed := maxSpeed;
      } else if specialEffectTimer == 100 {
        speed := maxSpeed * K.SpeedBoost;
        Face(0.0);
      }
      specialEffectTimer := specialEffectTimer - 1;
    }

    method PortalTick()
      requires specialEffectTimer > 0
      modifies this
      ensures State() == K.PortalTick(old(State()))
    {
      if specialEffectTimer == 10 {
        x := K.PortalX;
        z := K.PortalZ;
        Face(DegToRad(200.0));
      }
      specialEffectTimer := specialEffectTimer - 1;
    }

    method DizzyTick()
      requires specialEffectTimer > 0
      modifies this
      ensures State() == K.DizzyTick(old(State()))
    {
      if specialEffectTimer - 1 == 0 {
        dizzy := false;
      } else if specialEffectTimer == 200 {
        dizzy := true;
      }
      specialEffectTimer := specialEffectTimer - 1;
    }

    method BlockTick()
      requires specialEffectTimer > 0
      modifies this
      ensures State() == K.BlockTick(old(State()))
    {
      if specialEffectTimer == 100 {
        block := false;
      } else if specialEffectTimer == 250 {
        block := true;
      }
      specialEffectTimer := specialEffectTimer - 1;
    }

    method SlowTick()
      requires specialEffectTimer > 0
      modifies this
      ensures State() == K.SlowTick(old(State()))
    {
      if specialEffectTimer - 1 == 0 {
        maxSpeed := K.DefaultMaxSpeed;
        minSpeed := K.DefaultMinSpeed;
      } else if specialEffectTimer == 200 {
        speed := speed * K.SlowFactor;
        maxSpeed := maxSpeed * K.SlowFactor;
        minSpeed := minSpeed * K.SlowFactor;
      }
      specialEffectTimer := specialEffectTimer - 1;
    }

    method Update(trig: Trig)
      modifies this
      ensures State() == K.Update(old(State()), trig)
      ensures old(Valid()) ==> Valid()
    {
      ApplySpecialEffect();
      if block {
        return;
      }
      Move(trig);
    }

    /** The part of `update` after the effect tick, for a car not blocked. */
    method Move(trig: Trig)
      modifies this
      ensures State() == K.Move(old(State()), trig)
    {
      Advance(trig);
      var value := 10.0 * speed;
      if right {
        angle := angle - DegToRad(value);
        SpendTurnBudget();
      } else if left {
        angle := angle + DegToRad(value);
        SpendTurnBudget();
      }
    }

    /** Integrate the position along the heading, then wrap the heading. */
    method Advance(trig: Trig)
      modifies this
      ensures State() == K.Advance(old(State()), trig)
    {
      var dx := speed * trig.sin(angle);
      var dz := speed * trig.cos(angle);
      x := x - dx;
      z := z - dz;
      angle := TurnRem(angle);
    }

    /**
     * One tick of the turn budget: decrement it, drop the intent when it is
     * used up, align the body with the heading and set the wheels.
     */
    method SpendTurnBudget()
      requires left || right
      modifies this
      ensures State() == K.SpendTurnBudget(old(State()))
    {
      angleOffset := angleOffset - 1;
      if angleOffset == 0 {
        if right {
          right := false;
        } else {
          left := false;
        }
        angleOffset := 0;
      }
      rotationY := angle;
      TurnWheels();
    }
  }
}
