/**
 * `MyGame` as an object: the menu, the race and the results screen, with the
 * cars, the route, the reader's cars and the placed obstacles updated in
 * place. Each gameplay stage, key and picker click is proved to change the
 * game exactly as the matching function of module Race changes the game's
 * `View`; the menu and results-screen clicks are proved to keep the game's
 * invariant and to set up the next race as the source does.
 */
module Games {
  import opened Basics
  import opened PowerUps
  import opened Obstacles
  import opened Vehicles
  import opened Routes
  import opened Readers
  import K = Kinematics
  import R = Race

  /** Where `gameplay` puts the player's and the opponent's car. */
  const PlayerStartX: real := -2.0
  const PlayerStartZ: real := 8.0
  const AutoStartX: real := 2.0
  const AutoStartZ: real := 5.0

  /** No object appears twice. */
  predicate AllDifferent(os: seq<Obstacle>) {
    forall i, j :: 0 <= i < j < |os| ==> os[i] != os[j]
  }

  /**
   * The start label after a menu frame: it appears once a non-empty name and
   * both cars are chosen, and it goes away while the name is the empty text.
   */
  function StartLabel(shown: bool, name: Option<string>, bothChosen: bool): (s: bool)
    ensures s <==> name != Some("") && (shown || (name.Some? && bothChosen))
    ensures !shown && s ==> name.Some? && name.value != "" && bothChosen
  {
    var added := shown || (name.Some? && name.value != "" && bothChosen);
    added && name != Some("")
  }

  /** `gameplay` puts a car at a start position, facing angle 0. */
  function Lineup(c: K.Car, x: real, z: real): (l: K.Car)
    ensures l.x == x && l.z == z && l.angle == 0.0 && l.rotationY == 0.0
    ensures l.laps == c.laps && l.speed == c.speed && l.specialEffectTimer == c.specialEffectTimer
  {
    c.(x := x, z := z, angle := 0.0, rotationY := 0.0)
  }

  /** A parked catalog car lined up for a race is a brand-new car at the start position. */
  lemma LineupIsNewCar(spec: CarSpec, x: real, z: real)
    ensures Lineup(ParkedCar(spec), x, z) == K.NewCar(spec.model, x, z)
  {
  }

  /**
   * The difficulty of the route a race runs on: `gameplay` builds a route
   * for the chosen difficulty only when no route exists yet.
   */
  function RaceRouteDifficulty(existing: Option<string>, chosen: string): (d: string)
    ensures existing.None? ==> d == chosen
    ensures existing.Some? ==> d == existing.value
  {
    if existing.None? then chosen else existing.value
  }

  /** The difficulty of an existing route, if there is one. */
  function ExistingDifficulty(route: Route?): Option<string> {
    if route == null then None else Some(route.difficulty)
  }

  /** The track test of `offTrack`: every sample is visited, and any close one puts the car on the track. */
  method ScanTrack(samples: seq<Point3>, x: real, z: real) returns (onTrack: bool)
    ensures onTrack == R.OnTrack(samples, x, z)
  {
    onTrack := false;
    for i := 0 to |samples|
      invariant onTrack <==> exists k :: 0 <= k < i && R.Close(samples[k], x, z)
    {
      if Abs(-samples[i].x - x) < R.TrackHalfWidth && Abs(samples[i].z - z) < R.TrackHalfWidth {
        onTrack := true;
      }
    }
  }

  /** The power-up loop of `specialEffect`: the first power-up whose mesh the car touches. */
  method FindPowerUp(car: Vehicle, ps: seq<PowerUp>) returns (found: Option<nat>)
    ensures found == R.FirstPowerUpFrom(car.State(), ps, 0)
  {
    for i := 0 to |ps|
      invariant R.FirstPowerUpFrom(car.State(), ps, 0) == R.FirstPowerUpFrom(car.State(), ps, i)
    {
      if ps[i].mesh.Some? && car.CheckCollision(ps[i].mesh.value.x, ps[i].mesh.value.z) {
        return Some(i);
      }
    }
    return None;
  }

  /** The obstacle loop of `specialEffect`: the first placed obstacle the car touches. */
  method FindObstacle(car: Vehicle, os: seq<Obstacle>) returns (found: Option<nat>)
    ensures found == R.FirstObstacleFrom(car.State(), os, 0)
  {
    for i := 0 to |os|
      invariant R.FirstObstacleFrom(car.State(), os, 0) == R.FirstObstacleFrom(car.State(), os, i)
    {
      if car.CheckCollision(os[i].mesh.x, os[i].mesh.z) {
        return Some(i);
      }
    }
    return None;
  }

  /** A car put at (x, z), heading and body turned to `angle`. */
  method PlaceCar(car: Vehicle, x: real, z: real, angle: real)
    modifies car
    ensures car.State() == old(car.State()).(x := x, z := z, angle := angle, rotationY := angle)
  {
    car.x, car.z := x, z;
    car.rotationY := angle;
    car.angle := angle;
  }

  /** The car side of `offTrack`, once the track test is known. */
  method PenalizeOffTrack(car: Vehicle, onTrack: bool)
    modifies car
    ensures car.State() == R.OffTrackPenalty(old(car.State()), onTrack)
  {
    if onTrack {
      if car.offTrack {
        car.offTrack := false;
        car.maxSpeed := 0.4;
        car.minSpeed := -0.2;
      }
      return;
    }
    if !car.offTrack {
      car.offTrack := true;
      car.speed := car.speed * 0.2;
      car.maxSpeed := car.maxSpeed * 0.2;
      car.minSpeed := car.minSpeed * 0.2;
    }
  }

  /** The car takes an effect's kind and duration. */
  method TakeEffect(car: Vehicle, kind: string, duration: nat)
    modifies car
    ensures car.State() == R.TakeEffect(old(car.State()), kind, duration)
  {
    car.specialEffect := Some(kind);
    car.specialEffectTimer := duration;
  }

  /** Both cars at their start positions, facing angle 0. */
  method LineUp(player: Vehicle, auto: Vehicle)
    requires player != auto
    modifies player, auto
    ensures player.State() == Lineup(old(player.State()), PlayerStartX, PlayerStartZ)
    ensures auto.State() == Lineup(old(auto.State()), AutoStartX, AutoStartZ)
  {
    PlaceCar(player, PlayerStartX, PlayerStartZ, 0.0);
    PlaceCar(auto, AutoStartX, AutoStartZ, 0.0);
  }

  class Game {
    const reader: Reader
    var playerName: Option<string>
    var difficulty: string
    var playerCar: Vehicle?
    var playerIndex: nat
    var autoCar: Vehicle?
    var autoIndex: nat
    /** `state`, `follow`, `paused`, `pickingObstacle`, and which listeners are attached. */
    var flags: R.Flags
    /** `startTime`, `elapsedTime`, `lapCooldown`, `playerTime`, and the opponent's recorded time. */
    var clocks: R.Clocks
    var obstacles: seq<Obstacle>
    var route: Route?
    /** The menu shows the start label, and its click listener is attached. */
    var startShown: bool
    /** The race as module Race sees it; outside the menu it is `View()`. */
    ghost var race: R.Race

    /** Everything a race needs: the reader, two different cars and a route. */
    predicate Equipped()
      reads this`playerCar, this`autoCar, this`route
    {
      playerCar != null && autoCar != null && route != null && playerCar != autoCar
    }

    /**
     * The invariant: the six catalog cars, the player's pick among the first
     * three and the opponent's among the rest, everything a race needs once
     * the menu is left, a route whose clip length is that of its own
     * difficulty (in the menu after a return it is the finished race's
     * route), listeners only in their own phase, placed obstacles that
     * are different objects, and, outside the menu, the race that module Race
     * describes.
     */
    ghost predicate Valid()
      reads this, reader`cars, reader`obstacles, reader`powerUps, playerCar, autoCar, route
    {
      Consistent() && (flags.state != R.Menu ==> Couples())
    }

    /** The invariant without the race: it is what `gameplay` needs, with new cars or old. */
    predicate Consistent()
      reads this, reader`cars, reader`obstacles
    {
      Picks() && Waiting() && Setup() && Listening() && AllDifferent(obstacles)
    }

    /** The reader's six different cars and the two picks among them. */
    predicate Picks()
      reads this`playerIndex, this`autoIndex, this`playerCar, this`autoCar, reader`cars
    {
      |reader.cars| == |CarCatalog| && reader.DistinctCars()
      && playerIndex < PlayerChoices <= autoIndex < |reader.cars|
      && (playerCar != null ==> playerCar == reader.cars[playerIndex])
      && (autoCar != null ==> autoCar == reader.cars[autoIndex])
      && (playerCar != null && autoCar != null ==> playerCar != autoCar)
    }

    /** A template waiting to be placed is one of the reader's templates. */
    predicate Waiting()
      reads this`flags, reader`obstacles
    {
      flags.placing.Some? ==> flags.placing.value < |reader.obstacles|
    }

    /**
     * A race is equipped, the start label needs both cars, and a route has
     * the clip length of its own difficulty. (After the return click the
     * menu holds a route of the finished race's difficulty, so the route's
     * difficulty need not be the chosen one.)
     */
    predicate Setup()
      reads this`playerCar, this`autoCar, this`flags, this`startShown, this`route
    {
      (flags.state != R.Menu ==> Equipped())
      && (startShown ==> playerCar != null && autoCar != null && flags.state == R.Menu)
      && (route != null ==> route.animationMaxDuration == MaxDuration(route.difficulty))
    }

    /** The key listeners belong to the race and the results listeners to the results screen. */
    predicate Listening()
      reads this`flags
    {
      (flags.keysListening ==> flags.state == R.Gameplay) && (flags.overListening ==> flags.state == R.Over)
    }

    /** What the race functions of module Race see of the game. */
    function View(): R.Race
      requires Equipped()
      reads this`flags, this`clocks, this`playerCar, this`autoCar, this`obstacles, this`route,
            reader`powerUps, playerCar, autoCar, route`hasMixer
    {
      R.Race(flags, clocks, playerCar.State(), autoCar.State(), obstacles, reader.powerUps,
             route.animationMaxDuration, route.hasMixer)
    }

    /** The ghost race is what the fields, the cars and the route hold. */
    ghost predicate Couples()
      reads this`flags, this`clocks, this`playerCar, this`autoCar, this`obstacles, this`route,
            this`race, reader`powerUps, playerCar, autoCar, route
    {
      Equipped() && race.flags == flags && race.clocks == clocks
      && race.player == playerCar.State() && race.auto == autoCar.State()
      && race.obstacles == obstacles && race.powerUps == reader.powerUps
      && race.maxDuration == route.animationMaxDuration && race.animating == route.hasMixer
    }

    // -------------------------------------------------------------------
    // One gameplay frame of `update`, stage by stage. Each stage changes the
    // fields as the function of the same name in module Race changes the race.

    /** The start clock; in its fourth second the race is unpaused and the route's animation starts. */
    method Countdown()
      requires Couples()
      modifies this`clocks, this`flags, route, this`race
      ensures Couples() && race == R.Countdown(old(race))
    {
      clocks := clocks.(startTime := clocks.startTime + R.TickMs);
      if R.Seconds(clocks.startTime) == R.CountdownSeconds {
        flags := flags.(paused := false);
        route.PlayAnimation();
      }
      race := R.Countdown(race);
    }

    /** The race clock advances by one frame. */
    method Elapse()
      requires Couples()
      modifies this`clocks, this`race
      ensures Couples() && race == R.Elapse(old(race))
    {
      clocks := clocks.(elapsedTime := clocks.elapsedTime + R.TickMs);
      race := R.Elapse(race);
    }

    /** The lap clock, the recorded time and `lapCompleted`, before the last lap only. */
    method LapStage()
      requires Couples()
      modifies this`clocks, playerCar, this`race
      ensures Couples() && race == R.LapStage(old(race))
    {
      if playerCar.laps < R.MaxLaps {
        clocks := clocks.(lapCooldown := clocks.lapCooldown + R.TickMs, playerTime := R.Seconds(clocks.elapsedTime));
        race := R.LapClock(race);
        LapCompleted();
      }
    }

    /** `lapCompleted`. */
    method LapCompleted()
      requires Couples()
      modifies this`clocks, playerCar, this`race
      ensures Couples() && race == R.LapCheck(old(race))
    {
      var finishLine := Abs(playerCar.x) < 5.0 && Abs(playerCar.z) < 1.0;
      if finishLine && R.Seconds(clocks.lapCooldown) > R.LapCooldownSeconds {
        clocks := clocks.(lapCooldown := 0);
        playerCar.laps := playerCar.laps + 1;
      }
      race := R.LapCheck(race);
    }

    /** The player's car collides with the opponent or moves. */
    method PlayerStage(trig: Trig)
      requires Couples()
      modifies playerCar, this`race
      ensures Couples() && race == R.PlayerStage(old(race), trig)
    {
      var x, z := autoCar.x, autoCar.z;
      if playerCar.CheckCollision(x, z) {
        playerCar.Collide(x, z);
      } else {
        playerCar.Update(trig);
      }
      race := R.PlayerStage(race, trig);
    }

    /** `offTrack`, with the track's sample points given. */
    method OffTrack(samples: seq<Point3>)
      requires Couples()
      modifies playerCar, this`race
      ensures Couples() && race == R.OffTrackStage(old(race), samples)
    {
      var onTrack := ScanTrack(samples, playerCar.x, playerCar.z);
      PenalizeOffTrack(playerCar, onTrack);
      race := R.OffTrackStage(race, samples);
    }

    /** `specialEffect`: power-ups first, then placed obstacles; the first hit is taken. */
    method SpecialEffect()
      requires Couples()
      modifies this`flags, playerCar, this`race
      ensures Couples() && race == R.Pickup(old(race))
    {
      if playerCar.specialEffectTimer == 0 {
        var p := FindPowerUp(playerCar, reader.powerUps);
        if p.Some? {
          var powerUp := reader.powerUps[p.value];
          TakeEffect(playerCar, powerUp.kind, powerUp.duration);
          race := R.Take(race, powerUp.kind, powerUp.duration);
          PickObstacle();
          return;
        }
        var o := FindObstacle(playerCar, obstacles);
        if o.Some? {
          var obstacle := obstacles[o.value];
          TakeEffect(playerCar, obstacle.kind, obstacle.duration);
          race := R.Take(race, obstacle.kind, obstacle.duration);
        }
      }
    }

    /** `pickObstacle`: the race pauses and the template listener is attached. */
    method PickObstacle()
      requires Couples()
      modifies this`flags, this`race
      ensures Couples() && race == R.PickObstacle(old(race))
    {
      flags := flags.(paused := true, follow := false, pickingObstacle := true, pickListening := true);
      race := R.PickObstacle(race);
    }

    /** The opponent collides or moves, and the route updates, inside the race length. */
    method OpponentStage(trig: Trig)
      requires Couples()
      modifies autoCar, route, this`race
      ensures Couples() && race == R.OpponentStage(old(race), trig)
    {
      if R.Seconds(clocks.elapsedTime) < R.RaceSeconds(route.animationMaxDuration) {
        var x, z := playerCar.x, playerCar.z;
        if autoCar.CheckCollision(x, z) {
          autoCar.Collide(x, z);
        } else {
          autoCar.Update(trig);
        }
        route.Update();
      }
      race := R.OpponentStage(race, trig);
    }

    /** Every placed obstacle spins once. */
    method SpinObstacles()
      requires AllDifferent(obstacles)
      modifies set o | o in obstacles
      ensures forall k :: 0 <= k < |obstacles| ==> obstacles[k].spin == old(obstacles[k].spin) + SpinStep
    {
      for i := 0 to |obstacles|
        invariant forall k :: 0 <= k < i ==> obstacles[k].spin == old(obstacles[k].spin) + SpinStep
        invariant forall k :: i <= k < |obstacles| ==> obstacles[k].spin == old(obstacles[k].spin)
      {
        obstacles[i].Update();
      }
    }

    /** The obstacles spin; the race does not see it. */
    method SpinStage()
      requires Couples() && AllDifferent(obstacles)
      modifies set o | o in obstacles
      ensures Couples()
      ensures forall k :: 0 <= k < |obstacles| ==> obstacles[k].spin == old(obstacles[k].spin) + SpinStep
    {
      SpinObstacles();
    }

    /** The race ends when every lap is run and the race length has passed. */
    method EndStage()
      requires Couples()
      modifies this`flags, this`clocks, this`obstacles, playerCar, autoCar, this`race
      ensures Couples() && race == R.EndStage(old(race))
    {
      if playerCar.laps == R.MaxLaps && R.Seconds(clocks.elapsedTime) >= R.RaceSeconds(route.animationMaxDuration) {
        EndGameplay();
      }
    }

    /** `endGameplay`: keys off, obstacles removed, both cars parked, then `gameOver`. */
    method EndGameplay()
      requires Couples()
      modifies this`flags, this`clocks, this`obstacles, playerCar, autoCar, this`race
      ensures Couples() && race == R.EndGameplay(old(race))
    {
      flags := flags.(keysListening := false, follow := false);
      obstacles := [];
      PlaceCar(playerCar, -85.0, 21.0, R.PlayerParkAngle);
      PlaceCar(autoCar, -70.0, 60.0, R.AutoParkAngle);
      race := R.Park(race);
      GameOver();
    }

    /**
     * `gameOver`: the results screen with its listeners, and the recorded
     * times: an end before the race length records the sentinel for the
     * player and the elapsed seconds for the opponent.
     */
    method GameOver()
      requires Couples()
      modifies this`flags, this`clocks, this`race
      ensures Couples() && race == R.GameOver(old(race))
    {
      flags := flags.(state := R.Over, overListening := true);
      var secs := R.Seconds(clocks.elapsedTime);
      var raceSeconds := R.RaceSeconds(route.animationMaxDuration);
      if secs < raceSeconds {
        clocks := clocks.(autoTime := secs, playerTime := R.SentinelTime);
      } else {
        clocks := clocks.(autoTime := raceSeconds);
      }
      race := R.GameOver(race);
    }

    /** The race clock, the lap stage and the player's move. */
    method RunPlayer(trig: Trig)
      requires Couples()
      modifies this`clocks, playerCar, this`race
      ensures Couples() && race == R.PlayerStage(R.LapStage(R.Elapse(old(race))), trig)
    {
      Elapse();
      LapStage();
      PlayerStage(trig);
    }

    /** The track test, the pickup and the opponent's move. */
    method RunChecks(trig: Trig, samples: seq<Point3>)
      requires Couples()
      modifies this`flags, playerCar, autoCar, route, this`race
      ensures Couples() && race == R.OpponentStage(R.Pickup(R.OffTrackStage(old(race), samples)), trig)
    {
      OffTrack(samples);
      SpecialEffect();
      OpponentStage(trig);
    }

    /** The stages after the pause test, with the obstacles' spin before the end test. */
    method RunFrame(trig: Trig, samples: seq<Point3>)
      requires Couples() && AllDifferent(obstacles)
      modifies this`flags, this`clocks, this`obstacles, playerCar, autoCar, route, set o | o in obstacles, this`race
      ensures Couples() && race == R.Running(old(race), trig, samples)
    {
      RunPlayer(trig);
      RunChecks(trig, samples);
      SpinStage();
      EndStage();
    }

    /** One gameplay frame of `update`. */
    method GameplayTick(trig: Trig, samples: seq<Point3>)
      requires Valid() && flags.state == R.Gameplay
      modifies this`flags, this`clocks, this`obstacles, playerCar, autoCar, route, set o | o in obstacles, this`race
      ensures Valid() && flags.state != R.Menu
      ensures race == R.Tick(old(race), trig, samples)
    {
      R.TickKeepsListeners(race, trig, samples);
      Frame(trig, samples);
      assert Picks() && Setup();
      assert Waiting() && Listening() && AllDifferent(obstacles);
    }

    /** The countdown, then the rest of the frame unless the race is paused. */
    method Frame(trig: Trig, samples: seq<Point3>)
      requires Couples() && AllDifferent(obstacles)
      modifies this`flags, this`clocks, this`obstacles, playerCar, autoCar, route, set o | o in obstacles, this`race
      ensures Couples() && race == R.Tick(old(race), trig, samples)
    {
      Countdown();
      if flags.paused {
        return;
      }
      RunFrame(trig, samples);
    }

    // -------------------------------------------------------------------
    // Keys and the obstacle picker.

    /** The four driving listeners. */
    method DriveKeys(key: R.Key)
      requires Couples()
      modifies playerCar, this`race
      ensures Couples() && race == R.DriveKey(old(race), key)
    {
      if !flags.paused {
        match key {
          case W => playerCar.Accelerate();
          case S => playerCar.Brake();
          case A =>
            if !playerCar.dizzy {
              playerCar.TurnLeft();
            } else {
              playerCar.TurnRight();
            }
          case D =>
            if !playerCar.dizzy {
              playerCar.TurnRight();
            } else {
              playerCar.TurnLeft();
            }
          case _ =>
        }
      }
      race := R.DriveKey(race, key);
    }

    /** 'e' and 'q' of the game listener. */
    method ToggleKeys(key: R.Key)
      requires Couples()
      modifies this`flags, this`race
      ensures Couples() && race == R.ToggleKey(old(race), key)
    {
      if !flags.pickingObstacle && R.Seconds(clocks.startTime) > R.CountdownSeconds {
        if key == R.E {
          flags := flags.(follow := !flags.follow);
        } else if key == R.Q {
          flags := flags.(paused := !flags.paused);
        }
      }
      race := R.ToggleKey(race, key);
    }

    /** The game listener: Escape ends the race; 'e' and 'q' work after the countdown and outside the picker. */
    method GameListener(key: R.Key)
      requires Couples()
      modifies this`flags, this`clocks, this`obstacles, playerCar, autoCar, this`race
      ensures Couples() && race == R.GameKey(old(race), key)
    {
      if key == R.Escape {
        EndGameplay();
      }
      ToggleKeys(key);
    }

    /** One keydown, while the race's key listeners are attached. */
    method KeyDown(key: R.Key)
      requires Valid()
      modifies this`flags, this`clocks, this`obstacles, playerCar, autoCar, this`race
      ensures Valid()
      ensures !old(flags.keysListening) ==> unchanged(this)
      ensures !old(flags.keysListening) && playerCar != null ==> unchanged(playerCar)
      ensures !old(flags.keysListening) && autoCar != null ==> unchanged(autoCar)
      ensures old(flags.keysListening) ==> flags.state != R.Menu && Couples() && race == R.KeyDown(old(race), key)
    {
      if flags.keysListening {
        R.KeyKeepsListeners(race, key);
        HandleKey(key);
      }
    }

    /** The five key listeners in the order they were added. */
    method HandleKey(key: R.Key)
      requires Couples() && flags.keysListening
      modifies this`flags, this`clocks, this`obstacles, playerCar, autoCar, this`race
      ensures Couples() && race == R.KeyDown(old(race), key)
    {
      DriveKeys(key);
      GameListener(key);
    }

    /** A click on template `i` while the picker waits: the track listener waits to place it. */
    method ClickTemplate(i: nat)
      requires Valid() && i < |reader.obstacles|
      modifies this`flags, this`race
      ensures Valid()
      ensures flags == (if old(flags.pickListening) then old(flags).(pickListening := false, placing := Some(i))
                        else old(flags))
      ensures race == R.PickTemplate(old(race), i)
    {
      if flags.pickListening {
        flags := flags.(pickListening := false, placing := Some(i));
      }
      race := R.PickTemplate(race, i);
    }

    /**
     * A click on the track at (x, z) while a template waits: a new obstacle
     * of the template's kind is built there and appended, and the race
     * resumes.
     */
    method ClickTrack(x: real, z: real)
      requires Valid()
      modifies this`obstacles, this`flags, this`race
      ensures Valid()
      ensures old(flags.placing).None? ==> unchanged(this)
      ensures old(flags.placing).Some? ==>
                flags == old(flags).(paused := false, follow := true, pickingObstacle := false, placing := None)
      ensures old(flags.state) != R.Menu ==> Couples()
      ensures old(flags.placing).Some? ==>
                |obstacles| == |old(obstacles)| + 1 && obstacles[..|old(obstacles)|] == old(obstacles)
                && fresh(obstacles[|old(obstacles)|])
                && obstacles[|old(obstacles)|].kind == reader.obstacles[old(flags.placing).value].kind
                && obstacles[|old(obstacles)|].mesh == Point3(x, 1.0, z)
                && race == R.PlaceAt(old(race), obstacles[|old(obstacles)|])
    {
      if flags.placing.Some? {
        var template := reader.obstacles[flags.placing.value];
        var obstacle := new Obstacle(template.kind, x, 0.0, z);
        Place(obstacle);
      }
    }

    /** `placed` joins the placed obstacles and the race resumes. */
    method Place(placed: Obstacle)
      requires flags.placing.Some?
      modifies this`obstacles, this`flags, this`race
      ensures obstacles == old(obstacles) + [placed]
      ensures flags == old(flags).(paused := false, follow := true, pickingObstacle := false, placing := None)
      ensures race == R.PlaceAt(old(race), placed)
      ensures old(Couples()) ==> Couples()
    {
      obstacles := obstacles + [placed];
      flags := flags.(paused := false, follow := true, pickingObstacle := false, placing := None);
      race := R.PlaceAt(race, placed);
    }

    // -------------------------------------------------------------------
    // The menu and the results screen.

    /** The name input's listener. */
    method TypeName(name: string)
      requires Valid()
      modifies this`playerName
      ensures Valid()
      ensures playerName == if old(flags.state) == R.Menu then Some(name) else old(playerName)
    {
      if flags.state == R.Menu {
        playerName := Some(name);
      }
    }

    /** The difficulty listener: a click on the normal label, else on the hard label. */
    method ClickDifficulty(hard: bool)
      requires Valid()
      modifies this`difficulty
      ensures Valid()
      ensures old(flags.state) == R.Menu ==> difficulty == if hard then Hard else Normal
      ensures old(flags.state) != R.Menu ==> difficulty == old(difficulty)
    {
      if flags.state == R.Menu {
        difficulty := if hard then Hard else Normal;
      }
    }

    /** The car selector: a click on car `i` picks it for the player among the first three, else for the opponent. */
    method ClickCar(i: nat)
      requires Valid() && i < |reader.cars|
      modifies this`playerCar, this`playerIndex, this`autoCar, this`autoIndex
      ensures Valid()
      ensures old(flags.state) == R.Menu && i < PlayerChoices ==>
                playerCar == reader.cars[i] && playerIndex == i && autoCar == old(autoCar) && autoIndex == old(autoIndex)
      ensures old(flags.state) == R.Menu && i >= PlayerChoices ==>
                autoCar == reader.cars[i] && autoIndex == i && playerCar == old(playerCar) && playerIndex == old(playerIndex)
      ensures old(flags.state) != R.Menu ==> unchanged(this)
    {
      if flags.state == R.Menu {
        if i < PlayerChoices {
          playerCar := reader.cars[i];
          playerIndex := i;
        } else {
          autoCar := reader.cars[i];
          autoIndex := i;
        }
      }
    }

    /** A menu frame of `update`: the start label and its listener come and go. */
    method MenuTick()
      requires Valid()
      modifies this`startShown
      ensures Valid()
      ensures old(flags.state) == R.Menu ==>
                startShown == StartLabel(old(startShown), playerName, playerCar != null && autoCar != null)
      ensures old(flags.state) != R.Menu ==> startShown == old(startShown)
    {
      if flags.state == R.Menu {
        startShown := StartLabel(startShown, playerName, playerCar != null && autoCar != null);
      }
    }

    /** The start listener: the menu goes away and the race starts. */
    method ClickStart()
      requires Valid()
      modifies this`startShown, this`route, this`flags, this`race, playerCar, autoCar
      ensures Valid()
      ensures old(startShown) ==> flags.state == R.Gameplay
                                  && route.difficulty == RaceRouteDifficulty(ExistingDifficulty(old(route)), difficulty)
                                  && route.animationMaxDuration == MaxDuration(route.difficulty)
      ensures old(startShown) ==>
                !startShown && playerCar == old(playerCar) && autoCar == old(autoCar)
                && playerCar.State() == Lineup(old(playerCar.State()), PlayerStartX, PlayerStartZ)
                && autoCar.State() == Lineup(old(autoCar.State()), AutoStartX, AutoStartZ)
                && flags == old(flags).(state := R.Gameplay, follow := true, paused := true, keysListening := true)
                && clocks == old(clocks) && obstacles == old(obstacles) && race == View()
      ensures !old(startShown) ==> unchanged(this)
      ensures !old(startShown) && playerCar != null ==> unchanged(playerCar)
      ensures !old(startShown) && autoCar != null ==> unchanged(autoCar)
    {
      if startShown {
        startShown := false;
        Gameplay();
      }
    }

    /**
     * `gameplay`: a route for the chosen difficulty when none exists, both
     * cars at their start positions, the race paused and followed, and the
     * key listeners attached.
     */
    method Gameplay()
      requires Consistent() && flags.state != R.Gameplay && !startShown && !flags.overListening
      requires playerCar != null && autoCar != null
      modifies this`route, this`flags, this`race, playerCar, autoCar
      ensures Valid() && flags.state == R.Gameplay
      ensures route.difficulty == RaceRouteDifficulty(ExistingDifficulty(old(route)), difficulty)
      ensures route.animationMaxDuration == MaxDuration(route.difficulty)
      ensures old(route) == null ==> fresh(route) && !route.hasMixer
      ensures old(route) != null ==> route == old(route)
      ensures playerCar == old(playerCar) && autoCar == old(autoCar)
      ensures playerCar.State() == Lineup(old(playerCar.State()), PlayerStartX, PlayerStartZ)
      ensures autoCar.State() == Lineup(old(autoCar.State()), AutoStartX, AutoStartZ)
      ensures flags == old(flags).(state := R.Gameplay, follow := true, paused := true, keysListening := true)
      ensures clocks == old(clocks) && obstacles == old(obstacles)
    {
      if route == null {
        route := new Route(difficulty);
      }
      LineUp(playerCar, autoCar);
      flags := flags.(state := R.Gameplay, follow := true, paused := true, keysListening := true);
      race := View();
    }

    /** The reader's cars are thrown away and the six catalog cars built again. */
    method RebuildCars()
      modifies reader`cars
      ensures reader.CarsAreCatalog()
      ensures forall k :: 0 <= k < |reader.cars| ==> fresh(reader.cars[k])
    {
      reader.cars := [];
      reader.CreateCars();
    }

    /**
     * The return listener: the results screen's click on its return label.
     */
    method ClickReturn()
      requires Valid()
      modifies this`route, this`playerName, this`difficulty, this`playerCar, this`autoCar, this`flags, this`clocks,
               this`startShown, reader`cars
      ensures Valid()
      ensures old(flags.overListening) ==>
                flags.state == R.Menu && fresh(route) && route.difficulty == old(difficulty)
                && difficulty == Normal && playerCar == null && autoCar == null
      ensures !old(flags.overListening) ==> unchanged(this) && unchanged(reader)
    {
      if flags.overListening {
        ReturnToMenu();
      }
    }

    /**
     * What the return click does: a new route for the finished race's
     * difficulty, which the next race then keeps whatever is chosen; new
     * cars; the name, the difficulty, both picks and the clocks reset; and
     * the menu back.
     */
    method ReturnToMenu()
      requires Consistent() && flags.overListening
      modifies this`route, this`playerName, this`difficulty, this`playerCar, this`autoCar, this`flags, this`clocks,
               this`startShown, reader`cars
      ensures Consistent()
      ensures flags == old(flags).(state := R.Menu, overListening := false, follow := false, paused := false)
      ensures clocks == old(clocks).(elapsedTime := 0, startTime := 0, playerTime := 0, lapCooldown := 0)
      ensures !startShown && fresh(route) && route.difficulty == old(difficulty) && !route.hasMixer
      ensures playerName.None? && difficulty == Normal && playerCar == null && autoCar == null
      ensures reader.CarsAreCatalog() && forall k :: 0 <= k < |reader.cars| ==> fresh(reader.cars[k])
    {
      LeaveResults();
      RebuildCars();
    }

    /**
     * The return click as evidently intended: the same resets, but no route
     * is left over, so `gameplay` builds one for the next choice.
     */
    method ReturnToMenuCorrected()
      requires Consistent() && flags.overListening
      modifies this`route, this`playerName, this`difficulty, this`playerCar, this`autoCar, this`flags, this`clocks,
               this`startShown, reader`cars
      ensures Consistent()
      ensures flags == old(flags).(state := R.Menu, overListening := false, follow := false, paused := false)
      ensures clocks == old(clocks).(elapsedTime := 0, startTime := 0, playerTime := 0, lapCooldown := 0)
      ensures !startShown && route == null
      ensures playerName.None? && difficulty == Normal && playerCar == null && autoCar == null
      ensures reader.CarsAreCatalog() && forall k :: 0 <= k < |reader.cars| ==> fresh(reader.cars[k])
    {
      ReturnToMenu();
      route := null;
    }

    /**
     * A menu session: the difficulty, a name, the player's car, the
     * opponent's car and a menu frame that shows the start label.
     */
    method MenuChoices(name: string, hard: bool, player: nat, auto: nat)
      requires Valid() && flags.state == R.Menu
      requires name != "" && player < PlayerChoices <= auto < |CarCatalog|
      modifies this`playerName, this`difficulty, this`playerCar, this`playerIndex, this`autoCar, this`autoIndex,
               this`startShown
      ensures Valid() && flags.state == R.Menu && startShown
      ensures difficulty == (if hard then Hard else Normal) && playerName == Some(name)
      ensures playerCar == reader.cars[player] && autoCar == reader.cars[auto]
    {
      ClickDifficulty(hard);
      TypeName(name);
      ClickCar(player);
      ClickCar(auto);
      MenuTick();
    }

    /** A menu session and the start click: the race runs on the route `gameplay` finds or builds. */
    method ChooseRace(name: string, hard: bool, player: nat, auto: nat)
      requires Valid() && flags.state == R.Menu
      requires name != "" && player < PlayerChoices <= auto < |CarCatalog|
      modifies this`playerName, this`difficulty, this`playerCar, this`playerIndex, this`autoCar, this`autoIndex,
               this`startShown, this`route, this`flags, this`race, reader.cars
      ensures Valid() && flags.state == R.Gameplay && difficulty == (if hard then Hard else Normal)
      ensures route.difficulty == RaceRouteDifficulty(ExistingDifficulty(old(route)), difficulty)
      ensures race.maxDuration == MaxDuration(route.difficulty)
    {
      MenuChoices(name, hard, player, auto);
      ClickStart();
    }

    /**
     * The finding on the game itself: after a hard race, the return click
     * and a menu session that chooses normal run the next race on the hard
     * route, whose 18-second clip makes a 57-second race instead of the 69
     * seconds of a normal one.
     */
    method RaceAfterReturnAsWritten(name: string, player: nat, auto: nat)
      requires Valid() && flags.overListening && difficulty == Hard
      requires name != "" && player < PlayerChoices <= auto < |CarCatalog|
      modifies this`route, this`playerName, this`difficulty, this`playerCar, this`playerIndex, this`autoCar,
               this`autoIndex, this`flags, this`clocks, this`startShown, this`race, reader`cars
      ensures Valid() && flags.state == R.Gameplay && difficulty == Normal
      ensures route.difficulty == Hard && route.animationMaxDuration == 18
      ensures R.RaceSeconds(race.maxDuration) == 57 && R.RaceSeconds(MaxDuration(difficulty)) == 69
    {
      ReturnToMenu();
      ChooseRace(name, false, player, auto);
    }

    /**
     * The same session after the corrected return runs the next race on the
     * route of the difficulty chosen for it.
     */
    method RaceAfterReturnCorrected(name: string, hard: bool, player: nat, auto: nat)
      requires Valid() && flags.overListening
      requires name != "" && player < PlayerChoices <= auto < |CarCatalog|
      modifies this`route, this`playerName, this`difficulty, this`playerCar, this`playerIndex, this`autoCar,
               this`autoIndex, this`flags, this`clocks, this`startShown, this`race, reader`cars
      ensures Valid() && flags.state == R.Gameplay && difficulty == (if hard then Hard else Normal)
      ensures route.difficulty == difficulty && race.maxDuration == MaxDuration(difficulty)
      ensures R.RaceSeconds(race.maxDuration) == if hard then 57 else 69
    {
      ReturnToMenuCorrected();
      ChooseRace(name, hard, player, auto);
    }

    /**
     * The results screen goes with its listeners; a route is built with the
     * finished race's difficulty before the choices and the clocks are
     * reset; the menu comes back.
     */
    method LeaveResults()
      modifies this`route, this`playerName, this`difficulty, this`playerCar, this`autoCar, this`flags, this`clocks,
               this`startShown
      ensures flags == old(flags).(state := R.Menu, overListening := false, follow := false, paused := false)
      ensures clocks == old(clocks).(elapsedTime := 0, startTime := 0, playerTime := 0, lapCooldown := 0)
      ensures !startShown && fresh(route) && route.difficulty == old(difficulty) && !route.hasMixer
      ensures route.animationMaxDuration == MaxDuration(old(difficulty))
      ensures playerName.None? && difficulty == Normal && playerCar == null && autoCar == null
    {
      flags := flags.(overListening := false);
      route := new Route(difficulty);
      flags := flags.(follow := false, paused := false);
      playerName := None;
      difficulty := Normal;
      playerCar := null;
      autoCar := null;
      clocks := clocks.(elapsedTime := 0, startTime := 0, playerTime := 0, lapCooldown := 0);
      MainMenu();
    }

    /** The restart listener: the results screen's click on its restart label. */
    method ClickRestart()
      requires Valid()
      modifies this`route, this`playerCar, this`autoCar, this`flags, this`clocks, this`race, reader`cars
      ensures Valid()
      ensures old(flags.overListening) ==> flags.state == R.Gameplay && fresh(route) && fresh(playerCar) && fresh(autoCar)
      ensures !old(flags.overListening) ==> unchanged(this) && unchanged(reader)
    {
      if flags.overListening {
        Restart();
      }
    }

    /**
     * What the restart click does: a new route for the same difficulty, new
     * cars with the same picks, clocks reset, and the race starts again with
     * brand-new cars at the start positions.
     */
    method Restart()
      requires Consistent() && flags.overListening
      modifies this`route, this`playerCar, this`autoCar, this`flags, this`clocks, this`race, reader`cars
      ensures Valid()
      ensures flags == old(flags).(state := R.Gameplay, overListening := false, keysListening := true,
                                   paused := true, follow := true)
      ensures clocks == old(clocks).(elapsedTime := 0, startTime := 0, playerTime := 0, lapCooldown := 0)
      ensures fresh(route) && route.difficulty == difficulty && !route.hasMixer
      ensures fresh(playerCar) && fresh(autoCar)
      ensures playerCar.State() == K.NewCar(CarCatalog[playerIndex].model, PlayerStartX, PlayerStartZ)
      ensures autoCar.State() == K.NewCar(CarCatalog[autoIndex].model, AutoStartX, AutoStartZ)
    {
      PrepareRestart();
      LineupIsNewCar(CarCatalog[playerIndex], PlayerStartX, PlayerStartZ);
      LineupIsNewCar(CarCatalog[autoIndex], AutoStartX, AutoStartZ);
      Gameplay();
    }

    /** The restart click up to `gameplay`: results left, new route, new cars picked again. */
    method PrepareRestart()
      requires Consistent() && flags.overListening
      modifies this`route, this`playerCar, this`autoCar, this`flags, this`clocks, reader`cars
      ensures Consistent() && flags.state == R.Over && !startShown
      ensures flags == old(flags).(overListening := false, follow := false, paused := false)
      ensures clocks == old(clocks).(elapsedTime := 0, startTime := 0, playerTime := 0, lapCooldown := 0)
      ensures fresh(route) && route.difficulty == difficulty && !route.hasMixer
      ensures fresh(playerCar) && fresh(autoCar)
      ensures playerCar.State() == ParkedCar(CarCatalog[playerIndex])
      ensures autoCar.State() == ParkedCar(CarCatalog[autoIndex])
    {
      LeaveResultsForRace();
      TakeNewCars();
    }

    /**
     * The restart click's resets: the results listeners go, a new route for
     * the same difficulty, camera and pause off, and the clocks at 0. (The
     * source resets camera, pause and clocks after the new cars; neither
     * step reads what the other writes.)
     */
    method LeaveResultsForRace()
      modifies this`route, this`flags, this`clocks
      ensures fresh(route) && route.difficulty == difficulty && !route.hasMixer
      ensures route.animationMaxDuration == MaxDuration(difficulty)
      ensures flags == old(flags).(overListening := false, follow := false, paused := false)
      ensures clocks == old(clocks).(elapsedTime := 0, startTime := 0, playerTime := 0, lapCooldown := 0)
    {
      flags := flags.(overListening := false);
      route := new Route(difficulty);
      flags := flags.(follow := false, paused := false);
      clocks := clocks.(elapsedTime := 0, startTime := 0, playerTime := 0, lapCooldown := 0);
    }

    /** New catalog cars, with the player's and the opponent's picks taken again from them. */
    method TakeNewCars()
      requires playerIndex < PlayerChoices <= autoIndex < |CarCatalog|
      modifies reader`cars, this`playerCar, this`autoCar
      ensures reader.CarsAreCatalog()
      ensures playerCar == reader.cars[playerIndex] && autoCar == reader.cars[autoIndex]
      ensures fresh(playerCar) && fresh(autoCar)
      ensures playerCar.State() == ParkedCar(CarCatalog[playerIndex])
      ensures autoCar.State() == ParkedCar(CarCatalog[autoIndex])
    {
      RebuildCars();
      playerCar := reader.cars[playerIndex];
      autoCar := reader.cars[autoIndex];
    }

    /** `mainMenu`: the menu state, with a new menu whose start label is not shown. */
    method MainMenu()
      modifies this`flags, this`startShown
      ensures flags == old(flags).(state := R.Menu) && !startShown
    {
      flags := flags.(state := R.Menu);
      startShown := false;
    }

    /**
     * The constructor followed by `init`: a reader builds the scene, the
     * picks default to cars 0 and 3, the difficulty to normal, and the menu
     * opens.
     */
    constructor()
      ensures Valid() && !startShown
      ensures difficulty == Normal && playerName.None? && playerCar == null && autoCar == null
      ensures playerIndex == 0 && autoIndex == 3 && route == null && obstacles == []
      ensures flags == R.Flags(R.Menu, false, false, false, false, None, false, false)
      ensures clocks == R.Clocks(0, 0, 0, 0, 0)
      ensures reader.Initialized() && reader.CarsAreCatalog() && reader.ObstaclesAreCatalog()
      ensures reader.powerUps == PowerUpCatalog
    {
      playerName := None;
      difficulty := Normal;
      playerCar := null;
      playerIndex := 0;
      autoCar := null;
      autoIndex := 3;
      flags := R.Flags(R.Menu, false, false, false, false, None, false, false);
      clocks := R.Clocks(0, 0, 0, 0, 0);
      obstacles := [];
      route := null;
      startShown := false;
      var r := new Reader();
      r.Init();
      reader := r;
      new;
    }

    /** `update`: one animation frame in the current state. */
    method Update(trig: Trig, samples: seq<Point3>)
      requires Valid()
      modifies this`startShown, this`flags, this`clocks, this`obstacles, this`race, playerCar, autoCar, route,
               set o | o in obstacles
      ensures Valid()
      ensures old(flags.state) == R.Menu ==>
                startShown == StartLabel(old(startShown), playerName, playerCar != null && autoCar != null)
                && flags == old(flags) && clocks == old(clocks) && obstacles == old(obstacles) && race == old(race)
      ensures old(flags.state) == R.Menu && playerCar != null ==> unchanged(playerCar)
      ensures old(flags.state) == R.Menu && autoCar != null ==> unchanged(autoCar)
      ensures old(flags.state) == R.Menu && route != null ==> unchanged(route)
      ensures old(flags.state) == R.Gameplay ==>
                flags.state != R.Menu && Couples() && race == R.Tick(old(race), trig, samples)
      ensures old(flags.state) == R.Over ==> unchanged(this)
    {
      if flags.state == R.Menu {
        MenuTick();
      } else if flags.state == R.Gameplay {
        GameplayTick(trig, samples);
      }
    }
  }
}
