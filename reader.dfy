/**
 * `MyReader`: builds the scene's game elements once. Every element is
 * created only when it is still absent, and the catalogs (cars, power-ups,
 * obstacle templates) come in a fixed order that the game relies on.
 */
module Readers {
  import opened Basics
  import opened PowerUps
  import opened Obstacles
  import opened Vehicles
  import K = Kinematics

  /** A parked car of the catalog: model, position and heading. */
  datatype CarSpec = CarSpec(model: string, x: real, z: real, angle: real)

  /** An obstacle template of the catalog. */
  datatype ObstacleSpec = ObstacleSpec(kind: string, x: real, y: real, z: real)

  /** Cars 0-2 are the player's choices, cars 3-5 the opponent's. */
  const CarCatalog: seq<CarSpec> := [
    CarSpec("Aquamarine", -88.0, 17.0, Pi / 2.0),
    CarSpec("Street Blue", -85.0, 21.0, Pi / 2.0),
    CarSpec("Azure Blitz", -82.0, 25.0, Pi / 2.0),
    CarSpec("Flame Cruiser", -71.0, 55.0, Pi / 1.3),
    CarSpec("Crimson Comet", -70.0, 60.0, Pi / 1.3),
    CarSpec("Blood Bullet", -69.0, 65.0, Pi / 1.3)
  ]

  /** The number of cars the player can pick from (the first ones of the catalog). */
  const PlayerChoices: nat := 3

  const PowerUpCatalog: seq<PowerUp> := [
    NewPowerUp(SpeedEffect, 2.0, 0.0, 80.0),
    NewPowerUp(PortalEffect, -44.0, 0.0, 0.5)
  ]

  const ObstacleCatalog: seq<ObstacleSpec> := [
    ObstacleSpec(SlowEffect, -55.0, 0.0, 86.0),
    ObstacleSpec(BlockEffect, -50.0, 0.0, 90.0),
    ObstacleSpec(DizzyEffect, -45.0, 0.0, 94.0)
  ]

  /** The light poles, at the mesh positions `createPole` gives them (y + 8). */
  const PolePositions: seq<Point3> := [
    Point3(15.0, 8.0, 20.0), Point3(20.0, 8.0, 60.0), Point3(5.0, 8.0, 100.0),
    Point3(-30.0, 8.0, 100.0), Point3(-65.0, 8.0, 75.0), Point3(-80.0, 8.0, 0.0),
    Point3(-55.0, 8.0, -30.0), Point3(-20.0, 8.0, -70.0), Point3(20.0, 8.0, -30.0)
  ]

  /** The control points of the track's closed path. */
  function TrackControlPoints(): (ps: seq<Point3>)
    ensures |ps| == 9
    ensures ps[0] == Point3(0.0, 0.0, 0.0) && ps[8] == ps[0]
  {
    [Point3(0.0, 0.0, 0.0), Point3(0.0, 0.0, -50.0), Point3(40.0, 0.0, -50.0),
     Point3(40.0, 0.0, 0.0), Point3(70.0, 0.0, 10.0), Point3(65.0, 0.0, 30.0),
     Point3(40.0, 0.0, 80.0), Point3(0.0, 0.0, 90.0), Point3(0.0, 0.0, 0.0)]
  }

  /** The state of a freshly parked catalog car. */
  function ParkedCar(spec: CarSpec): (c: K.Car)
    ensures c.model == spec.model && c.x == spec.x && c.z == spec.z
    ensures c.angle == spec.angle && c.rotationY == spec.angle
    ensures c.speed == 0.0 && c.laps == 0 && c.specialEffectTimer == 0
    ensures K.TurnOk(c) && K.EffectOk(c)
  {
    K.NewCar(spec.model, spec.x, spec.z).(angle := spec.angle, rotationY := spec.angle)
  }

  class Reader {
    var ground: bool
    var poles: seq<Point3>
    var stadium: bool
    var billboard: bool
    var playerPark: bool
    var autoPark: bool
    var obstaclePark: bool
    var cars: seq<Vehicle>
    /** The control points of the track, once it exists. */
    var track: Option<seq<Point3>>
    var powerUps: seq<PowerUp>
    /** The obstacle templates the player picks from. */
    var obstacles: seq<Obstacle>

    /** The scenery flags: ground, stadium, billboard and the three parks. */
    function Scenery(): (f: (bool, bool, bool, bool, bool, bool))
      reads this
      ensures f.0 == ground && f.1 == stadium && f.2 == billboard
      ensures f.3 == playerPark && f.4 == autoPark && f.5 == obstaclePark
    {
      (ground, stadium, billboard, playerPark, autoPark, obstaclePark)
    }

    /** Every car is a different object. */
    predicate DistinctCars()
      reads this`cars
    {
      forall i, j :: 0 <= i < j < |cars| ==> cars[i] != cars[j]
    }

    /** After `init`, everything exists and the catalogs are in place. */
    predicate Initialized()
      reads this
    {
      ground && |poles| > 0 && stadium && billboard
      && (playerPark || autoPark || obstaclePark)
      && |cars| > 0 && track.Some? && |powerUps| > 0 && |obstacles| > 0
    }

    /** The cars are exactly the catalog, each parked as the catalog says. */
    predicate CarsAreCatalog()
      reads this`cars, cars
    {
      |cars| == |CarCatalog| && DistinctCars()
      && forall i :: 0 <= i < |cars| ==> cars[i].State() == ParkedCar(CarCatalog[i])
    }

    /** The obstacle templates are exactly the catalog. */
    predicate ObstaclesAreCatalog()
      reads this`obstacles, obstacles
    {
      |obstacles| == |ObstacleCatalog|
      && forall i :: 0 <= i < |obstacles| ==>
           obstacles[i].kind == ObstacleCatalog[i].kind
           && obstacles[i].duration == ObstacleDuration(ObstacleCatalog[i].kind)
           && obstacles[i].mesh == Point3(ObstacleCatalog[i].x, ObstacleCatalog[i].y + 1.0, ObstacleCatalog[i].z)
    }

    constructor()
      ensures !ground && poles == [] && !stadium && !billboard
      ensures !playerPark && !autoPark && !obstaclePark
      ensures cars == [] && track == None && powerUps == [] && obstacles == []
    {
      ground := false;
      poles := [];
      stadium := false;
      billboard := false;
      playerPark := false;
      autoPark := false;
      obstaclePark := false;
      cars := [];
      track := None;
      powerUps := [];
      obstacles := [];
    }

    /**
     * `init`: each element is created only when absent (null or empty), so
     * what exists already is kept and a second call adds nothing.
     */
    method Init()
      modifies this
      ensures Initialized()
      ensures old(ground) ==> ground
      ensures old(|poles|) > 0 ==> poles == old(poles)
      ensures old(|poles|) == 0 ==> poles == PolePositions
      ensures old(|cars|) > 0 ==> cars == old(cars)
      ensures old(|cars|) == 0 ==> CarsAreCatalog() && forall c :: c in cars ==> fresh(c)
      ensures old(track).Some? ==> track == old(track)
      ensures old(track).None? ==> track == Some(TrackControlPoints())
      ensures old(|powerUps|) > 0 ==> powerUps == old(powerUps)
      ensures old(|powerUps|) == 0 ==> powerUps == PowerUpCatalog
      ensures old(|obstacles|) > 0 ==> obstacles == old(obstacles)
      ensures old(|obstacles|) == 0 ==> ObstaclesAreCatalog()
      ensures old(playerPark || autoPark || obstaclePark) ==>
                playerPark == old(playerPark) && autoPark == old(autoPark)
                && obstaclePark == old(obstaclePark)
    {
      InitScenery();
      InitElements();
    }

    /** The first half of `init`: ground, poles, stadium, billboard, parks. */
    method InitScenery()
      modifies this`ground, this`poles, this`stadium, this`billboard
      modifies this`playerPark, this`autoPark, this`obstaclePark
      ensures ground && |poles| > 0 && stadium && billboard
      ensures playerPark || autoPark || obstaclePark
      ensures old(|poles|) > 0 ==> poles == old(poles)
      ensures old(|poles|) == 0 ==> poles == PolePositions
      ensures old(playerPark || autoPark || obstaclePark) ==>
                playerPark == old(playerPark) && autoPark == old(autoPark)
                && obstaclePark == old(obstaclePark)
    {
      if !ground {
        ground := true;
      }
      if |poles| == 0 {
        CreateLights();
      }
      if !stadium {
        stadium := true;
      }
      if !billboard {
        billboard := true;
      }
      if !playerPark && !autoPark && !obstaclePark {
        playerPark, autoPark, obstaclePark := true, true, true;
      }
    }

    /** The second half of `init`: cars, track, power-ups, obstacle templates. */
    method InitElements()
      modifies this`cars, this`track, this`powerUps, this`obstacles
      ensures |cars| > 0 && track.Some? && |powerUps| > 0 && |obstacles| > 0
      ensures old(|cars|) > 0 ==> cars == old(cars)
      ensures old(|cars|) == 0 ==> CarsAreCatalog() && forall c :: c in cars ==> fresh(c)
      ensures old(track).Some? ==> track == old(track)
      ensures old(track).None? ==> track == Some(TrackControlPoints())
      ensures old(|powerUps|) > 0 ==> powerUps == old(powerUps)
      ensures old(|powerUps|) == 0 ==> powerUps == PowerUpCatalog
      ensures old(|obstacles|) > 0 ==> obstacles == old(obstacles)
      ensures old(|obstacles|) == 0 ==> ObstaclesAreCatalog()
    {
      InitCars();
      if track.None? {
        track := Some(TrackControlPoints());
      }
      if |powerUps| == 0 {
        CreatePowerUps();
      }
      if |obstacles| == 0 {
        CreateObstacles();
      }
    }

    /** The cars part of `init`: the catalog cars, only when there are none yet. */
    method InitCars()
      modifies this`cars
      ensures |cars| > 0
      ensures old(|cars|) > 0 ==> cars == old(cars)
      ensures old(|cars|) == 0 ==> CarsAreCatalog() && forall c :: c in cars ==> fresh(c)
    {
      if |cars| == 0 {
        CreateCars();
      }
    }

    /** `createLights`: the nine poles, in order. */
    method CreateLights()
      modifies this`poles
      ensures poles == old(poles) + PolePositions
    {
      var i := 0;
      while i < |PolePositions|
        invariant 0 <= i <= |PolePositions|
        invariant poles == old(poles) + PolePositions[..i]
      {
        poles := poles + [PolePositions[i]];
        i := i + 1;
      }
    }

    /** Park one catalog car: a new vehicle with the catalog's position and heading. */
    method AddCar(spec: CarSpec) returns (car: Vehicle)
      modifies this`cars
      ensures fresh(car) && car.State() == ParkedCar(spec)
      ensures cars == old(cars) + [car]
    {
      car := new Vehicle(spec.model, spec.x, spec.z);
      car.rotationY := spec.angle;
      car.angle := spec.angle;
      cars := cars + [car];
    }

    /** `createCars`: the six catalog cars appended in catalog order. */
    method CreateCars()
      modifies this`cars
      ensures |cars| == |old(cars)| + |CarCatalog| && cars[..|old(cars)|] == old(cars)
      ensures forall i :: 0 <= i < |CarCatalog| ==>
                fresh(cars[|old(cars)| + i])
                && cars[|old(cars)| + i].State() == ParkedCar(CarCatalog[i])
      ensures old(DistinctCars()) ==> DistinctCars()
    {
      ghost var added: seq<Vehicle> := [];
      var i := 0;
      while i < |CarCatalog|
        invariant 0 <= i <= |CarCatalog| && |added| == i
        invariant cars == old(cars) + added
        invariant forall k :: 0 <= k < i ==> fresh(added[k]) && added[k].State() == ParkedCar(CarCatalog[k])
        invariant old(DistinctCars()) ==> DistinctCars()
      {
        var car := AddCar(CarCatalog[i]);
        added := added + [car];
        i := i + 1;
      }
      assert cars[..|old(cars)|] == old(cars);
    }

    /** `createPowerUps`: Speed at (2, 0, 80), then Portal at (-44, 0, 0.5). */
    method CreatePowerUps()
      modifies this`powerUps
      ensures powerUps == old(powerUps) + PowerUpCatalog
    {
      powerUps := powerUps + [NewPowerUp(SpeedEffect, 2.0, 0.0, 80.0)];
      powerUps := powerUps + [NewPowerUp(PortalEffect, -44.0, 0.0, 0.5)];
    }

    /** `createObstacles`: Slow, Block, Dizzy templates, in that order. */
    method CreateObstacles()
      modifies this`obstacles
      ensures |obstacles| == |old(obstacles)| + |ObstacleCatalog|
      ensures obstacles[..|old(obstacles)|] == old(obstacles)
      ensures forall i :: 0 <= i < |ObstacleCatalog| ==>
                fresh(obstacles[|old(obstacles)| + i])
                && obstacles[|old(obstacles)| + i].kind == ObstacleCatalog[i].kind
                && obstacles[|old(obstacles)| + i].duration == ObstacleDuration(ObstacleCatalog[i].kind)
                && obstacles[|old(obstacles)| + i].mesh ==
                     Point3(ObstacleCatalog[i].x, ObstacleCatalog[i].y + 1.0, ObstacleCatalog[i].z)
    {
      var o := new Obstacle(SlowEffect, -55.0, 0.0, 86.0);
      obstacles := obstacles + [o];
      o := new Obstacle(BlockEffect, -50.0, 0.0, 90.0);
      obstacles := obstacles + [o];
      o := new Obstacle(DizzyEffect, -45.0, 0.0, 94.0);
      obstacles := obstacles + [o];
    }
  }
}
