/**
 * The gameplay controller of `MyGame` as a pure state machine: one `Race`
 * value holds what the controller and the two cars carry from one animation
 * frame to the next, and each stage of `update`, each key and each click of
 * the obstacle picker is a function from `Race` to `Race`. The class in
 * module Games is proved to follow these functions.
 */
module Race {
  import opened Basics
  import opened PowerUps
  import opened Obstacles
  import K = Kinematics
  import Routes

  /** Laps a race lasts. */
  const MaxLaps: nat := 3
  /** Milliseconds added to each counter on every frame. */
  const TickMs: nat := 17
  /** The start countdown, in seconds. */
  const CountdownSeconds: nat := 3
  /** Seconds that must pass on the lap clock before another lap counts. */
  const LapCooldownSeconds: nat := 10
  /** The player time recorded when the opponent has not finished. */
  const SentinelTime: nat := 999
  /** Off the track, speed and both limits are scaled by this factor once. */
  const PenaltyFactor: real := 0.2
  /** Half-width of the box around a track sample that counts as on the track. */
  const TrackHalfWidth: real := 5.0

  datatype Phase = Menu | Gameplay | Over

  /** The keys the keyboard listeners react to; every other key is `OtherKey`. */
  datatype Key = W | S | A | D | E | Q | Escape | OtherKey

  /**
   * The controller's phase and flags. `pickListening` and `placing` stand
   * for the click listeners of the obstacle picker: the template listener,
   * and the track listener with the template index it will place.
   */
  datatype Flags = Flags(
    state: Phase,
    follow: bool,
    paused: bool,
    pickingObstacle: bool,
    pickListening: bool,
    placing: Option<nat>,
    keysListening: bool,
    overListening: bool)

  /** The three millisecond counters and the two recorded times, in seconds. */
  datatype Clocks = Clocks(
    startTime: nat,
    elapsedTime: nat,
    lapCooldown: nat,
    playerTime: nat,
    autoTime: nat)

  /**
   * The controller's state during and after a race: flags, clocks, both
   * cars, the placed obstacles (the obstacle objects themselves: the kind,
   * duration and mesh position the race reads never change after
   * construction), the power-ups of the scene, the route's clip length and
   * whether the route's animation has started.
   */
  datatype Race = Race(
    flags: Flags,
    clocks: Clocks,
    player: K.Car,
    auto: K.Car,
    obstacles: seq<Obstacle>,
    powerUps: seq<PowerUp>,
    maxDuration: nat,
    animating: bool)

  /**
   * Whole seconds in `ms` milliseconds, as `Math.floor(ms / 1000)` counts
   * them; `SecondsFloor` proves it is that quotient.
   */
  function Seconds(ms: nat): nat {
    if ms < 1000 then 0 else 1 + Seconds(ms - 1000)
  }

  lemma {:induction false} SecondsFloor(ms: nat)
    ensures Seconds(ms) == ms / 1000
    ensures Seconds(ms) * 1000 <= ms < (Seconds(ms) + 1) * 1000
  {
    if ms >= 1000 {
      SecondsFloor(ms - 1000);
    }
  }

  /** The race length in whole seconds: the opponent's lap is the clip plus one second. */
  function RaceSeconds(maxDuration: nat): nat {
    MaxLaps * (maxDuration + 1)
  }

  /** A stage that keeps the phase, two clocks, the clip length, the lap count, the listeners and the waiting template. */
  predicate Steady(r: Race, s: Race) {
    s.flags.state == r.flags.state && s.clocks.startTime == r.clocks.startTime && s.clocks.elapsedTime == r.clocks.elapsedTime
    && s.maxDuration == r.maxDuration && s.player.laps == r.player.laps
    && s.flags.keysListening == r.flags.keysListening && s.flags.overListening == r.flags.overListening
    && s.flags.placing == r.flags.placing
  }

  // ---------------------------------------------------------------------
  // The stages of one gameplay frame, in the order `update` runs them.

  /** The start clock runs every frame; in its fourth second the race is unpaused and the route starts. */
  function Countdown(r: Race): (s: Race)
    ensures s.clocks == r.clocks.(startTime := r.clocks.startTime + TickMs)
    ensures s.player == r.player && s.auto == r.auto
    ensures s.flags == r.flags.(paused := s.flags.paused)
    ensures s.flags.paused == if Seconds(r.clocks.startTime + TickMs) == CountdownSeconds then false else r.flags.paused
    ensures s.animating == (r.animating || Seconds(r.clocks.startTime + TickMs) == CountdownSeconds)
    ensures s.obstacles == r.obstacles && s.maxDuration == r.maxDuration
  {
    var t := r.clocks.startTime + TickMs;
    if Seconds(t) == CountdownSeconds then r.(clocks := r.clocks.(startTime := t), flags := r.flags.(paused := false), animating := true)
    else r.(clocks := r.clocks.(startTime := t))
  }

  function Elapse(r: Race): Race {
    r.(clocks := r.clocks.(elapsedTime := r.clocks.elapsedTime + TickMs))
  }

  /** The finish box: |x| < 5 and |z| < 1. */
  predicate AtFinishLine(c: K.Car) {
    Abs(c.x) < 5.0 && Abs(c.z) < 1.0
  }

  /** `lapCompleted`: a lap counts in the finish box once more than ten seconds have passed. */
  function LapCheck(r: Race): (s: Race)
    ensures s == r.(clocks := s.clocks, player := s.player)
    ensures s.player == r.player.(laps := s.player.laps)
    ensures s.clocks == r.clocks.(lapCooldown := s.clocks.lapCooldown)
    ensures AtFinishLine(r.player) && Seconds(r.clocks.lapCooldown) > LapCooldownSeconds ==>
      s.player.laps == r.player.laps + 1 && s.clocks.lapCooldown == 0
    ensures !(AtFinishLine(r.player) && Seconds(r.clocks.lapCooldown) > LapCooldownSeconds) ==> s == r
  {
    if AtFinishLine(r.player) && Seconds(r.clocks.lapCooldown) > LapCooldownSeconds then
      r.(clocks := r.clocks.(lapCooldown := 0), player := r.player.(laps := r.player.laps + 1))
    else r
  }

  /** The lap clock runs and the player's time is the race clock in whole seconds. */
  function LapClock(r: Race): (s: Race)
    ensures s == r.(clocks := s.clocks)
    ensures s.clocks == r.clocks.(lapCooldown := r.clocks.lapCooldown + TickMs, playerTime := s.clocks.playerTime)
  {
    r.(clocks := r.clocks.(lapCooldown := r.clocks.lapCooldown + TickMs, playerTime := Seconds(r.clocks.elapsedTime)))
  }

  /** The lap clock, the recorded player time and the lap check run only before the last lap. */
  function LapStage(r: Race): (s: Race)
    ensures s.flags.state == r.flags.state && s.clocks.startTime == r.clocks.startTime && s.clocks.elapsedTime == r.clocks.elapsedTime
    ensures s == r.(clocks := s.clocks, player := s.player)
    ensures s.player == r.player.(laps := s.player.laps)
    ensures r.player.laps < MaxLaps && AtFinishLine(r.player) && Seconds(r.clocks.lapCooldown + TickMs) > LapCooldownSeconds ==>
      s.player.laps == r.player.laps + 1 && s.clocks.lapCooldown == 0
    ensures !(r.player.laps < MaxLaps && AtFinishLine(r.player) && Seconds(r.clocks.lapCooldown + TickMs) > LapCooldownSeconds) ==>
      s.player.laps == r.player.laps
    ensures r.player.laps >= MaxLaps ==> s == r
  {
    if r.player.laps < MaxLaps then
      LapCheck(LapClock(r))
    else r
  }

  /** The player's car collides with the opponent or moves, never both. */
  function PlayerStage(r: Race, trig: Trig): (s: Race)
    ensures Steady(r, s) && s == r.(player := s.player)
    ensures s.player.specialEffect == r.player.specialEffect
    ensures s.player == if K.Near(r.player, r.auto.x, r.auto.z) then K.Collide(r.player, r.auto.x, r.auto.z) else K.Update(r.player, trig)
  {
    if K.Near(r.player, r.auto.x, r.auto.z) then r.(player := K.Collide(r.player, r.auto.x, r.auto.z))
    else r.(player := K.Update(r.player, trig))
  }

  /** A track sample is close when the box of half-width 5 around its mirrored x and its z holds (x, z). */
  predicate Close(p: Point3, x: real, z: real) {
    Abs(-p.x - x) < TrackHalfWidth && Abs(p.z - z) < TrackHalfWidth
  }

  predicate OnTrack(samples: seq<Point3>, x: real, z: real) {
    exists k :: 0 <= k < |samples| && Close(samples[k], x, z)
  }

  /**
   * `offTrack` on the car: leaving the track scales speed and both limits by
   * 0.2 once; coming back restores the default limits and keeps the speed.
   */
  function OffTrackPenalty(c: K.Car, onTrack: bool): K.Car {
    if onTrack then
      if c.offTrack then c.(offTrack := false, maxSpeed := K.DefaultMaxSpeed, minSpeed := K.DefaultMinSpeed)
      else c
    else if !c.offTrack then
      c.(offTrack := true, speed := c.speed * PenaltyFactor,
         maxSpeed := c.maxSpeed * PenaltyFactor, minSpeed := c.minSpeed * PenaltyFactor)
    else c
  }

  function OffTrackStage(r: Race, samples: seq<Point3>): (s: Race)
    ensures Steady(r, s) && s == r.(player := s.player)
    ensures s.player.specialEffectTimer == r.player.specialEffectTimer
    ensures s.player.specialEffect == r.player.specialEffect
  {
    r.(player := OffTrackPenalty(r.player, OnTrack(samples, r.player.x, r.player.z)))
  }

  /** A power-up is hit when its mesh lies in the car's collision box. */
  predicate HitsPowerUp(c: K.Car, p: PowerUp) {
    p.mesh.Some? && K.Near(c, p.mesh.value.x, p.mesh.value.z)
  }

  predicate HitsObstacle(c: K.Car, o: Obstacle) {
    K.Near(c, o.mesh.x, o.mesh.z)
  }

  /** The first power-up at or after `from` that the car hits. */
  function FirstPowerUpFrom(c: K.Car, ps: seq<PowerUp>, from: nat): (i: Option<nat>)
    requires from <= |ps|
    ensures i.Some? ==> from <= i.value < |ps| && HitsPowerUp(c, ps[i.value])
    ensures i.Some? ==> forall k :: from <= k < i.value ==> !HitsPowerUp(c, ps[k])
    ensures i.None? ==> forall k :: from <= k < |ps| ==> !HitsPowerUp(c, ps[k])
    decreases |ps| - from
  {
    if from == |ps| then None
    else if HitsPowerUp(c, ps[from]) then Some(from)
    else FirstPowerUpFrom(c, ps, from + 1)
  }

  /** The first placed obstacle at or after `from` that the car hits. */
  function FirstObstacleFrom(c: K.Car, os: seq<Obstacle>, from: nat): (i: Option<nat>)
    requires from <= |os|
    ensures i.Some? ==> from <= i.value < |os| && HitsObstacle(c, os[i.value])
    ensures i.Some? ==> forall k :: from <= k < i.value ==> !HitsObstacle(c, os[k])
    ensures i.None? ==> forall k :: from <= k < |os| ==> !HitsObstacle(c, os[k])
    decreases |os| - from
  {
    if from == |os| then None
    else if HitsObstacle(c, os[from]) then Some(from)
    else FirstObstacleFrom(c, os, from + 1)
  }

  /** What the pickup scan finds: the first power-up hit, else the first placed obstacle hit. */
  datatype Hit = NoHit | Hit(kind: string, duration: nat, powerUp: bool)

  function PickupHit(c: K.Car, ps: seq<PowerUp>, os: seq<Obstacle>): Hit {
    match FirstPowerUpFrom(c, ps, 0)
    case Some(i) => Hit(ps[i].kind, ps[i].duration, true)
    case None =>
      match FirstObstacleFrom(c, os, 0)
      case Some(j) => Hit(os[j].kind, os[j].duration, false)
      case None => NoHit
  }

  /** `pickObstacle`: pause, stop following, and wait for a template to be clicked. */
  function PickObstacle(r: Race): Race {
    r.(flags := r.flags.(paused := true, follow := false, pickingObstacle := true, pickListening := true))
  }

  /** The car takes an effect's kind and duration. */
  function TakeEffect(c: K.Car, kind: string, duration: nat): K.Car {
    c.(specialEffect := Some(kind), specialEffectTimer := duration)
  }

  /** The player's car takes an effect. */
  function Take(r: Race, kind: string, duration: nat): Race {
    r.(player := TakeEffect(r.player, kind, duration))
  }

  /**
   * `specialEffect`: only a car without a running timer picks up; power-ups
   * are scanned first and a power-up also opens the obstacle picker; the
   * first hit wins.
   */
  function Pickup(r: Race): (s: Race)
    ensures Steady(r, s) && s.auto == r.auto && s.obstacles == r.obstacles
    ensures r.player.specialEffectTimer != 0 ==> s == r
  {
    var hit := if r.player.specialEffectTimer != 0 then NoHit else PickupHit(r.player, r.powerUps, r.obstacles);
    if hit.NoHit? then r
    else
      var taken := Take(r, hit.kind, hit.duration);
      if hit.powerUp then PickObstacle(taken) else taken
  }

  /** The opponent collides or moves while the race clock is inside the race length. */
  function OpponentStage(r: Race, trig: Trig): (s: Race)
    ensures Steady(r, s) && s == r.(auto := s.auto)
  {
    if Seconds(r.clocks.elapsedTime) < RaceSeconds(r.maxDuration) then
      if K.Near(r.auto, r.player.x, r.player.z) then r.(auto := K.Collide(r.auto, r.player.x, r.player.z))
      else r.(auto := K.Update(r.auto, trig))
    else r
  }

  /** The player has run every lap and the race length has passed. */
  predicate RaceOver(r: Race) {
    r.player.laps == MaxLaps && Seconds(r.clocks.elapsedTime) >= RaceSeconds(r.maxDuration)
  }

  const PlayerParkAngle: real := Pi / 1.7
  const AutoParkAngle: real := Pi / 1.6

  /** Keys off, camera free, obstacles removed, and both cars parked beside the results podium. */
  function Park(r: Race): Race {
    r.(flags := r.flags.(keysListening := false, follow := false), obstacles := [],
       player := r.player.(x := -85.0, z := 21.0, angle := PlayerParkAngle, rotationY := PlayerParkAngle),
       auto := r.auto.(x := -70.0, z := 60.0, angle := AutoParkAngle, rotationY := AutoParkAngle))
  }

  /** `endGameplay`: the race is parked, then `gameOver`. */
  function EndGameplay(r: Race): Race {
    GameOver(Park(r))
  }

  /** `gameOver`: the results screen, with the recorded times. */
  function GameOver(r: Race): Race {
    r.(flags := r.flags.(state := Over, overListening := true), clocks := Recorded(r.clocks, r.maxDuration))
  }

  /**
   * The recorded times: an end before the race length gives the player the
   * sentinel and the opponent the elapsed seconds; otherwise the opponent
   * gets the race length.
   */
  function Recorded(c: Clocks, maxDuration: nat): Clocks {
    var secs := Seconds(c.elapsedTime);
    if secs < RaceSeconds(maxDuration) then c.(autoTime := secs, playerTime := SentinelTime)
    else c.(autoTime := RaceSeconds(maxDuration))
  }

  function EndStage(r: Race): (s: Race)
    ensures s.clocks.elapsedTime == r.clocks.elapsedTime && s.player.laps == r.player.laps
    ensures RaceOver(r) ==> s.flags.state == Over && !s.flags.keysListening && s.obstacles == []
    ensures !RaceOver(r) ==> s == r
  {
    if RaceOver(r) then EndGameplay(r) else r
  }

  /** The stages after the pause test, up to the end test. */
  function Driven(r: Race, trig: Trig, samples: seq<Point3>): (s: Race)
    ensures s.flags.state == r.flags.state && s.maxDuration == r.maxDuration && s.obstacles == r.obstacles
    ensures s.flags.keysListening == r.flags.keysListening && s.flags.overListening == r.flags.overListening
    ensures s.flags.placing == r.flags.placing
  {
    var lapped := LapStage(Elapse(r));
    var moved := PlayerStage(lapped, trig);
    var checked := Pickup(OffTrackStage(moved, samples));
    OpponentStage(checked, trig)
  }

  /** The stages after the pause test. */
  function Running(r: Race, trig: Trig, samples: seq<Point3>): (s: Race)
    ensures s.flags.placing == r.flags.placing
    ensures r.flags.state == Gameplay && !r.flags.overListening ==>
      (s.flags.state == Gameplay && s.flags.keysListening == r.flags.keysListening
       && !s.flags.overListening && s.obstacles == r.obstacles)
      || (s.flags.state == Over && !s.flags.keysListening && s.flags.overListening && s.obstacles == [])
  {
    EndStage(Driven(r, trig, samples))
  }

  /** One gameplay frame of `update`. */
  function Tick(r: Race, trig: Trig, samples: seq<Point3>): Race {
    var counted := Countdown(r);
    if counted.flags.paused then counted else Running(counted, trig, samples)
  }

  // ---------------------------------------------------------------------
  // Keys and the obstacle picker.

  /** The four driving listeners: nothing while paused, left and right swapped while dizzy. */
  function DriveKey(r: Race, key: Key): Race {
    if r.flags.paused then r
    else
      match key
      case W => r.(player := K.Accelerate(r.player))
      case S => r.(player := K.Brake(r.player))
      case A => r.(player := if r.player.dizzy then K.TurnRight(r.player) else K.TurnLeft(r.player))
      case D => r.(player := if r.player.dizzy then K.TurnLeft(r.player) else K.TurnRight(r.player))
      case _ => r
  }

  /** 'e' toggles the camera and 'q' the pause, after the countdown and outside the picker. */
  function ToggleKey(r: Race, key: Key): Race {
    if !r.flags.pickingObstacle && Seconds(r.clocks.startTime) > CountdownSeconds then
      if key == E then r.(flags := r.flags.(follow := !r.flags.follow))
      else if key == Q then r.(flags := r.flags.(paused := !r.flags.paused))
      else r
    else r
  }

  /** The game listener: Escape ends the race, then 'e' and 'q' are tested. */
  function GameKey(r: Race, key: Key): Race {
    ToggleKey(if key == Escape then EndGameplay(r) else r, key)
  }

  /** One keydown: the five listeners in the order they were added, while they are attached. */
  function KeyDown(r: Race, key: Key): Race {
    if r.flags.keysListening then GameKey(DriveKey(r, key), key) else r
  }

  /** A template click: the picker's listener detaches and the track listener waits to place it. */
  function PickTemplate(r: Race, i: nat): Race {
    if r.flags.pickListening then r.(flags := r.flags.(pickListening := false, placing := Some(i)))
    else r
  }

  /**
   * A track click while a template waits: `placed`, the new obstacle built
   * from that template at the clicked point, joins the race and the race
   * resumes.
   */
  function PlaceAt(r: Race, placed: Obstacle): Race {
    if r.flags.placing.None? then r
    else r.(obstacles := r.obstacles + [placed],
            flags := r.flags.(paused := false, follow := true, pickingObstacle := false, placing := None))
  }

  /** `MyOver`: the player wins with the smaller time. */
  predicate PlayerWins(r: Race) {
    r.clocks.playerTime < r.clocks.autoTime
  }

  // ---------------------------------------------------------------------
  // Properties.

  /**
   * While the race stays paused, a frame only advances the start clock:
   * the race clock, the lap clock, laps and both cars are untouched.
   */
  lemma PausedFrame(r: Race, trig: Trig, samples: seq<Point3>)
    requires r.flags.paused && Seconds(r.clocks.startTime + TickMs) != CountdownSeconds
    ensures Tick(r, trig, samples) == r.(clocks := r.clocks.(startTime := r.clocks.startTime + TickMs))
  {
  }

  /** In the fourth second of the start clock every frame runs unpaused. */
  lemma CountdownUnpauses(r: Race, trig: Trig, samples: seq<Point3>)
    requires Seconds(r.clocks.startTime + TickMs) == CountdownSeconds
    ensures !Countdown(r).flags.paused && Countdown(r).animating
    ensures Tick(r, trig, samples).clocks.elapsedTime == r.clocks.elapsedTime + TickMs
  {
    var counted := Countdown(r);
    var lapped := LapStage(Elapse(counted));
    var moved := PlayerStage(lapped, trig);
    var checked := Pickup(OffTrackStage(moved, samples));
    var driven := OpponentStage(checked, trig);
    assert driven.clocks.elapsedTime == r.clocks.elapsedTime + TickMs;
  }

  /** Frames counted from a start clock at 0: frame n ends with the clock at 17 n. */
  function StartClockAfter(n: nat): nat {
    n * TickMs
  }

  /**
   * The countdown forces the race unpaused in exactly frames 177 to 235
   * after a restart of the start clock, and 'q' is accepted from frame 236.
   */
  lemma CountdownFrames(n: nat)
    ensures Seconds(StartClockAfter(n)) == CountdownSeconds <==> 177 <= n <= 235
    ensures Seconds(StartClockAfter(n)) > CountdownSeconds <==> n >= 236
  {
    SecondsFloor(StartClockAfter(n));
    if n <= 176 {
      assert n * 17 <= 176 * 17;
    } else if n <= 235 {
      assert 177 * 17 <= n * 17 <= 235 * 17;
    } else {
      assert 236 * 17 <= n * 17;
    }
  }

  /** After the pause test, only the lap stage changes the lap count. */
  lemma RunningLaps(r: Race, trig: Trig, samples: seq<Point3>)
    ensures Running(r, trig, samples).player.laps == LapStage(Elapse(r)).player.laps
  {
    var lapped := LapStage(Elapse(r));
    var moved := PlayerStage(lapped, trig);
    var checked := Pickup(OffTrackStage(moved, samples));
    assert checked.player.laps == lapped.player.laps;
    var driven := OpponentStage(checked, trig);
    assert driven.player.laps == lapped.player.laps;
  }

  /** Laps never exceed the race's three. */
  lemma LapsBounded(r: Race, trig: Trig, samples: seq<Point3>)
    requires r.player.laps <= MaxLaps
    ensures Tick(r, trig, samples).player.laps <= MaxLaps
  {
    var counted := Countdown(r);
    assert counted.player == r.player;
    if !counted.flags.paused {
      var e := Elapse(counted);
      assert e.player == r.player;
      assert LapStage(e).player.laps <= MaxLaps;
      RunningLaps(counted, trig, samples);
      assert Tick(r, trig, samples) == Running(counted, trig, samples);
    }
  }

  /**
   * A lap counts only in the finish box with the lap clock past ten
   * seconds, and counting restarts the lap clock.
   */
  lemma LapDebounce(r: Race)
    ensures LapStage(r).player.laps > r.player.laps <==>
      AtFinishLine(r.player) && r.player.laps < MaxLaps && Seconds(r.clocks.lapCooldown + TickMs) > LapCooldownSeconds
    ensures LapStage(r).player.laps > r.player.laps ==>
      LapStage(r).clocks.lapCooldown == 0 && LapStage(r).player.laps == r.player.laps + 1
  {
  }

  /**
   * On a frame that runs unpaused, a car in the finish box with the lap
   * clock past ten seconds and fewer than three laps completes a lap;
   * otherwise the frame keeps the lap count.
   */
  lemma TickCountsLap(r: Race, trig: Trig, samples: seq<Point3>)
    requires !Countdown(r).flags.paused
    ensures Tick(r, trig, samples).player.laps ==
      if r.player.laps < MaxLaps && AtFinishLine(r.player) && Seconds(r.clocks.lapCooldown + TickMs) > LapCooldownSeconds
      then r.player.laps + 1 else r.player.laps
  {
    var counted := Countdown(r);
    RunningLaps(counted, trig, samples);
    assert Elapse(counted).player == r.player;
    assert Elapse(counted).clocks.lapCooldown == r.clocks.lapCooldown;
  }

  /** Every gameplay frame advances the start clock by one tick, paused or not. */
  lemma TickAdvancesStartClock(r: Race, trig: Trig, samples: seq<Point3>)
    ensures Tick(r, trig, samples).clocks.startTime == r.clocks.startTime + TickMs
  {
    var counted := Countdown(r);
    if !counted.flags.paused {
      var lapped := LapStage(Elapse(counted));
      var moved := PlayerStage(lapped, trig);
      var checked := Pickup(OffTrackStage(moved, samples));
      var driven := OpponentStage(checked, trig);
      assert driven.clocks.startTime == counted.clocks.startTime;
    }
  }

  /** `n` gameplay frames in a row. */
  function Frames(r: Race, trig: Trig, samples: seq<Point3>, n: nat): Race
    decreases n
  {
    if n == 0 then r else Frames(Tick(r, trig, samples), trig, samples, n - 1)
  }

  /** After `n` frames the start clock has moved on by `StartClockAfter(n)`, whatever the pause state. */
  lemma {:induction false} FramesRunStartClock(r: Race, trig: Trig, samples: seq<Point3>, n: nat)
    ensures Frames(r, trig, samples, n).clocks.startTime == r.clocks.startTime + StartClockAfter(n)
    decreases n
  {
    if n > 0 {
      TickAdvancesStartClock(r, trig, samples);
      FramesRunStartClock(Tick(r, trig, samples), trig, samples, n - 1);
    }
  }

  /**
   * A frame moves the lap clock on by at most one tick, and counts no lap
   * while that tick leaves the clock below eleven seconds.
   */
  lemma TickLapClock(r: Race, trig: Trig, samples: seq<Point3>)
    ensures Tick(r, trig, samples).clocks.lapCooldown <= r.clocks.lapCooldown + TickMs
    ensures r.clocks.lapCooldown + TickMs < (LapCooldownSeconds + 1) * 1000 ==>
      Tick(r, trig, samples).player.laps == r.player.laps
  {
    var counted := Countdown(r);
    if !counted.flags.paused {
      var lapped := LapStage(Elapse(counted));
      var moved := PlayerStage(lapped, trig);
      var checked := Pickup(OffTrackStage(moved, samples));
      var driven := OpponentStage(checked, trig);
      assert driven.clocks.lapCooldown == lapped.clocks.lapCooldown;
      assert driven.player.laps == lapped.player.laps;
      SecondsFloor(r.clocks.lapCooldown + TickMs);
    }
  }

  /** While `n` more ticks keep the lap clock below eleven seconds, `n` frames count no lap. */
  lemma {:induction false} NoLapWhileCooling(r: Race, trig: Trig, samples: seq<Point3>, n: nat)
    requires r.clocks.lapCooldown + n * TickMs < (LapCooldownSeconds + 1) * 1000
    ensures Frames(r, trig, samples, n).player.laps == r.player.laps
    decreases n
  {
    if n > 0 {
      TickLapClock(r, trig, samples);
      NoLapWhileCooling(Tick(r, trig, samples), trig, samples, n - 1);
    }
  }

  /**
   * After a lap is counted the lap clock restarts at 0, and the next 647
   * frames count no lap, whatever the cars do and however often the race
   * is paused: the clock must climb past 10999 in steps of at most 17.
   */
  lemma LapsAreFramesApart(r: Race, trig: Trig, samples: seq<Point3>, n: nat)
    requires r.clocks.lapCooldown == 0 && n < 648
    ensures Frames(r, trig, samples, n).player.laps == r.player.laps
  {
    NoLapWhileCooling(r, trig, samples, n);
  }

  /** The off-track penalty is applied on the transition only. */
  lemma OffTrackEdge(c: K.Car)
    ensures !c.offTrack ==>
      OffTrackPenalty(c, false) ==
      c.(offTrack := true, speed := c.speed * 0.2, maxSpeed := c.maxSpeed * 0.2, minSpeed := c.minSpeed * 0.2)
    ensures c.offTrack ==> OffTrackPenalty(c, false) == c
    ensures !c.offTrack ==> OffTrackPenalty(c, true) == c
    ensures c.offTrack ==>
      OffTrackPenalty(c, true) == c.(offTrack := false, maxSpeed := 0.4, minSpeed := -0.2)
    ensures OffTrackPenalty(OffTrackPenalty(c, false), false) == OffTrackPenalty(c, false)
    ensures OffTrackPenalty(c, true).speed == c.speed
  {
  }

  /** The off-track flag records the latest on-track test. */
  lemma OffTrackFollowsTrack(c: K.Car, onTrack: bool)
    ensures OffTrackPenalty(c, onTrack).offTrack == !onTrack
  {
  }

  /**
   * Pickup needs a car with no running effect, and power-ups come first:
   * when the car hits some power-up, the first one hit is taken and the
   * obstacle picker opens.
   */
  lemma PowerUpsFirst(r: Race, k: nat)
    requires r.player.specialEffectTimer == 0
    requires k < |r.powerUps| && HitsPowerUp(r.player, r.powerUps[k])
    ensures exists i :: 0 <= i <= k && HitsPowerUp(r.player, r.powerUps[i])
                        && (forall j :: 0 <= j < i ==> !HitsPowerUp(r.player, r.powerUps[j]))
                        && Pickup(r).player == TakeEffect(r.player, r.powerUps[i].kind, r.powerUps[i].duration)
    ensures Pickup(r).flags.paused && Pickup(r).flags.pickingObstacle && !Pickup(r).flags.follow && Pickup(r).flags.pickListening
  {
    var found := FirstPowerUpFrom(r.player, r.powerUps, 0);
    assert found.Some?;
    var i := found.value;
    assert PickupHit(r.player, r.powerUps, r.obstacles) == Hit(r.powerUps[i].kind, r.powerUps[i].duration, true);
  }

  /**
   * With no power-up hit, the first placed obstacle hit sets the effect and
   * nothing else; with no hit at all nothing changes.
   */
  lemma ObstaclesSecond(r: Race)
    requires r.player.specialEffectTimer == 0
    requires forall k :: 0 <= k < |r.powerUps| ==> !HitsPowerUp(r.player, r.powerUps[k])
    ensures (forall k :: 0 <= k < |r.obstacles| ==> !HitsObstacle(r.player, r.obstacles[k])) ==> Pickup(r) == r
    ensures forall j :: 0 <= j < |r.obstacles| && HitsObstacle(r.player, r.obstacles[j])
                        && (forall k :: 0 <= k < j ==> !HitsObstacle(r.player, r.obstacles[k])) ==>
      Pickup(r) == r.(player := TakeEffect(r.player, r.obstacles[j].kind, r.obstacles[j].duration))
  {
    var none := FirstPowerUpFrom(r.player, r.powerUps, 0);
    if none.Some? {
      assert false;
    }
    var found := FirstObstacleFrom(r.player, r.obstacles, 0);
    if found.Some? {
      var o := r.obstacles[found.value];
      assert PickupHit(r.player, r.powerUps, r.obstacles) == Hit(o.kind, o.duration, false);
      forall j | 0 <= j < |r.obstacles| && HitsObstacle(r.player, r.obstacles[j])
                 && (forall k :: 0 <= k < j ==> !HitsObstacle(r.player, r.obstacles[k]))
        ensures j == found.value
      {
      }
    } else {
      assert PickupHit(r.player, r.powerUps, r.obstacles) == NoHit;
    }
  }

  /** What the scan finds with a positive duration is a known effect kind. */
  lemma HitIsKnown(c: K.Car, ps: seq<PowerUp>, os: seq<Obstacle>)
    requires forall k :: 0 <= k < |ps| ==> ps[k].duration > 0 ==> KnownEffect(ps[k].kind)
    requires forall k :: 0 <= k < |os| ==> os[k].duration == ObstacleDuration(os[k].kind)
    ensures var hit := PickupHit(c, ps, os);
      hit.Hit? && hit.duration > 0 ==> KnownEffect(hit.kind)
  {
    var p := FirstPowerUpFrom(c, ps, 0);
    if p.None? {
      var o := FirstObstacleFrom(c, os, 0);
      if o.Some? {
        var b := os[o.value];
        assert b.duration == ObstacleDuration(b.kind);
      }
    }
  }

  /** A pickup that sets a timer sets a known effect, so the car's effect invariant holds. */
  lemma PickupKeepsEffectOk(r: Race)
    requires K.EffectOk(r.player)
    requires forall k :: 0 <= k < |r.powerUps| ==> r.powerUps[k].duration > 0 ==> KnownEffect(r.powerUps[k].kind)
    requires forall k :: 0 <= k < |r.obstacles| ==> r.obstacles[k].duration == ObstacleDuration(r.obstacles[k].kind)
    ensures K.EffectOk(Pickup(r).player)
  {
    if r.player.specialEffectTimer == 0 {
      var hit := PickupHit(r.player, r.powerUps, r.obstacles);
      HitIsKnown(r.player, r.powerUps, r.obstacles);
      if hit.Hit? {
        assert Pickup(r).player == TakeEffect(r.player, hit.kind, hit.duration);
      }
    }
  }

  /** The opponent moves only inside the race length; after it, it stays where it is. */
  lemma OpponentGate(r: Race, trig: Trig)
    ensures Seconds(r.clocks.elapsedTime) >= RaceSeconds(r.maxDuration) ==> OpponentStage(r, trig) == r
    ensures Seconds(r.clocks.elapsedTime) < RaceSeconds(r.maxDuration) ==>
      OpponentStage(r, trig).auto ==
        (if K.Near(r.auto, r.player.x, r.player.z) then K.Collide(r.auto, r.player.x, r.player.z)
         else K.Update(r.auto, trig))
  {
  }

  /** A frame that ends gameplay had all laps run and the race length passed. */
  lemma EndsOnlyWhenOver(r: Race, trig: Trig, samples: seq<Point3>)
    requires r.flags.state == Gameplay
    ensures Tick(r, trig, samples).flags.state == Over ==>
      !Countdown(r).flags.paused && Tick(r, trig, samples).player.laps == MaxLaps
      && Seconds(Tick(r, trig, samples).clocks.elapsedTime) >= RaceSeconds(r.maxDuration)
      && !Tick(r, trig, samples).flags.keysListening && Tick(r, trig, samples).obstacles == []
  {
    var counted := Countdown(r);
    if !counted.flags.paused {
      var lapped := LapStage(Elapse(counted));
      var moved := PlayerStage(lapped, trig);
      var checked := Pickup(OffTrackStage(moved, samples));
      var driven := OpponentStage(checked, trig);
      assert driven.flags.state == Gameplay && driven.maxDuration == r.maxDuration;
      assert Tick(r, trig, samples) == EndStage(driven);
    }
  }

  /**
   * A gameplay frame either keeps the race going with its key listeners and
   * obstacles, or ends it: keys off, obstacles gone, results listeners on.
   */
  lemma TickKeepsListeners(r: Race, trig: Trig, samples: seq<Point3>)
    requires r.flags.state == Gameplay && !r.flags.overListening
    ensures var s := Tick(r, trig, samples);
      (s.flags.state == Gameplay && s.flags.keysListening == r.flags.keysListening
       && !s.flags.overListening && s.obstacles == r.obstacles)
      || (s.flags.state == Over && !s.flags.keysListening && s.flags.overListening && s.obstacles == [])
    ensures Tick(r, trig, samples).flags.placing == r.flags.placing
  {
  }

  /** A key keeps the race and its listeners, except Escape, which ends it. */
  lemma KeyKeepsListeners(r: Race, key: Key)
    requires r.flags.state == Gameplay && r.flags.keysListening && !r.flags.overListening
    ensures var s := KeyDown(r, key);
      (key != Escape && s.flags.state == Gameplay && s.flags.keysListening
       && !s.flags.overListening && s.obstacles == r.obstacles)
      || (key == Escape && s.flags.state == Over && !s.flags.keysListening
          && s.flags.overListening && s.obstacles == [])
    ensures KeyDown(r, key).flags.placing == r.flags.placing
  {
  }

  /** The result: an early end records the sentinel for the player and the elapsed seconds for the opponent. */
  lemma GameOverResult(r: Race)
    ensures GameOver(r).flags.state == Over && GameOver(r).flags.overListening
    ensures Seconds(r.clocks.elapsedTime) < RaceSeconds(r.maxDuration) ==>
      GameOver(r).clocks.playerTime == SentinelTime && GameOver(r).clocks.autoTime == Seconds(r.clocks.elapsedTime)
    ensures Seconds(r.clocks.elapsedTime) >= RaceSeconds(r.maxDuration) ==>
      GameOver(r).clocks.playerTime == r.clocks.playerTime && GameOver(r).clocks.autoTime == RaceSeconds(r.maxDuration)
  {
  }

  /** With either route the race is 69 or 57 seconds, so ending early always loses. */
  lemma EarlyEndLoses(r: Race)
    requires r.maxDuration == Routes.MaxDuration(Routes.Normal) || r.maxDuration == Routes.MaxDuration(Routes.Hard)
    requires Seconds(r.clocks.elapsedTime) < RaceSeconds(r.maxDuration)
    ensures !PlayerWins(GameOver(r))
  {
  }

  /** When paused, 'w', 's', 'a' and 'd' change nothing. */
  lemma PausedKeysIgnored(r: Race, key: Key)
    requires r.flags.paused && key != Escape && key != E && key != Q
    ensures KeyDown(r, key) == r
  {
  }

  /** While dizzy, 'a' turns right and 'd' turns left. */
  lemma DizzyInverts(r: Race)
    requires r.flags.keysListening && !r.flags.paused && r.player.dizzy
    ensures KeyDown(r, A).player.right && !KeyDown(r, A).player.left
    ensures KeyDown(r, D).player.left && !KeyDown(r, D).player.right
  {
  }

  /** 'q' toggles the pause exactly when not picking and past the countdown. */
  lemma PauseToggle(r: Race)
    requires r.flags.keysListening
    ensures KeyDown(r, Q).flags.paused == (if !r.flags.pickingObstacle && Seconds(r.clocks.startTime) > CountdownSeconds then !r.flags.paused else r.flags.paused)
    ensures KeyDown(r, Q).player == r.player && KeyDown(r, Q).clocks.elapsedTime == r.clocks.elapsedTime
  {
  }

  /**
   * Picking a template and then clicking the track appends exactly one
   * obstacle, resumes the race and leaves both listeners detached; the
   * other listener state, the clocks and both cars are untouched.
   */
  lemma PlacementAppendsOne(r: Race, i: nat, placed: Obstacle)
    requires r.flags.pickListening
    ensures PickTemplate(r, i).flags.placing == Some(i)
    ensures var s := PlaceAt(PickTemplate(r, i), placed);
      s.obstacles == r.obstacles + [placed]
      && !s.flags.paused && !s.flags.pickingObstacle && s.flags.follow && s.flags.placing.None? && !s.flags.pickListening
      && s.player == r.player && s.auto == r.auto && s.clocks == r.clocks && s.flags.state == r.flags.state
      && s.flags.keysListening == r.flags.keysListening && s.flags.overListening == r.flags.overListening
  {
  }
}
