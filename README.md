# Race simulation core of the three.js kart game

This project models, in Dafny, the race-simulation layer of a small three.js
racing game: a player's car and an opponent race three laps around a track.
Power-ups and obstacles change how a car behaves for a fixed number of
ticks. The game moves from a menu to the race to a results screen.

The model follows the program's structure:

- `basics.dfy`: shared vocabulary.
  - The effect kinds.
  - Scene points.
  - `Math.PI` and `degToRad`.
  - JavaScript's truncating `%` for the heading wrap.
  - `Math.sin` and `Math.cos`, taken as given functions.
- `power_up.dfy`, `obstacle.dfy`: `MyPowerUp` and `MyObstacle`.
  - Each kind picks a duration once, and a mesh is placed from it.
  - An obstacle's mesh spins on every gameplay tick.
- `kinematics.dfy`: every step of `MyVehicle` as a pure function on a `Car` value.
  - The steps are guarded accelerate and brake, the 8-tick turn intents, and the proximity box and collision push.
  - The five special effects have their trigger ticks, and `block` freezes the car.
  - It also holds the lemmas about sequences of ticks.
- `vehicle.dfy`: `MyVehicle` as a class updated in place.
  - Every method is proved to leave exactly the state the matching `Kinematics` function computes.
- `route.dfy`: `MyRoute`.
  - The clip length per difficulty.
  - The duration tables and the running sums of `generateTimes`.
  - The mixer's pause switch.
- `sprite.dfy`: `MySprite.build`.
  - Glyph cell from the character code.
  - The running x with the per-text kerning switch, including its fall-through.
  - The centring and the background plane.
- `reader.dfy`: `MyReader`.
  - `init` creates each element only when it is absent.
  - The fixed car, power-up, obstacle and pole catalogs, in order.
- `race.dfy`: the gameplay controller of `MyGame` as a pure state machine.
  - The `Race` value holds the flags, the millisecond clocks, both cars, the placed obstacles and the power-ups.
  - Every stage of `update`, every key and every picker click is a function on it.
  - The lemmas state the countdown, lap, off-track, pickup, end-of-race and result rules.
- `game.dfy`: `MyGame` as a class.
  - The cars, the route, the reader's cars and the placed obstacles are updated in place.
  - A ghost `race` is kept equal to what the fields hold.
  - Each gameplay stage and key is proved to change it exactly as the function of module `Race` does.
  - The menu and results-screen clicks keep the game's invariant and set up the next race.

Whole seconds, written `Math.floor(t / 1000)` in the source, are `Race.Seconds`. It is defined by repeated subtraction, and `Race.SecondsFloor` proves it equals `t / 1000`. All counters are unbounded naturals: a 17 ms step never overflows a JavaScript number in any race the game can run. Speeds and factors (0.01, 0.4, -0.2, x0.2, x0.4, x1.7) are exact reals.

## Model

| member | source | states |
|---|---|---|
| Basics.TurnRem | elements/MyVehicle.js:492 | the heading wrap `angle % (2 * Math.PI)` keeps the sign of the angle, stays strictly within one turn, and leaves an angle already in [0, 2π) unchanged |
| PowerUps.NewPowerUp | elements/MyPowerUp.js:14-60 | kind and position stored verbatim; Speed lasts 100 ticks and Portal 10; any other kind has duration 0 and no mesh; the mesh sits at (x, y + 0.01, z); a positive duration means a known effect kind |
| Obstacles.ObstacleDuration | elements/MyObstacle.js:28-45 | Dizzy 200, Block 250, Slow 200; the duration is positive exactly for those three kinds, and an unknown kind keeps 0 |
| Obstacles.Obstacle.constructor | elements/MyObstacle.js:14-23 | the kind and coordinates are kept verbatim, the duration comes from the kind, and the mesh sits at (x, y + 1, z) with no spin |
| Obstacles.Obstacle.Update | elements/MyObstacle.js:95-98 | the mesh turns by exactly 0.01 and nothing else of the obstacle changes |
| Kinematics.NewCar | elements/MyVehicle.js:16-40 | a new car is at rest at (x, z) with limits 0.4 / -0.2, no intent, no effect, no laps, and satisfies both invariants |
| Kinematics.Accelerate | elements/MyVehicle.js:332-334 | only the speed changes; +0.01 exactly when below the limit, otherwise unchanged; so it overshoots the limit by less than 0.01 |
| Kinematics.Brake | elements/MyVehicle.js:339-341 | only the speed changes; -0.01 exactly when above the lower limit, otherwise unchanged |
| Kinematics.TurnLeft | elements/MyVehicle.js:346-350 | left on, right off, budget 8, nothing else changes, and the turn invariant holds |
| Kinematics.TurnRight | elements/MyVehicle.js:355-359 | right on, left off, budget 8, nothing else changes, and the turn invariant holds |
| Kinematics.WheelTurn | elements/MyVehicle.js:364-376 | wheels straight without an intent; 6·(10 - budget) degrees to the left for a left intent (left wins), to the right for a right intent; strictly signed while the budget is below 10 |
| Kinematics.TurnWheels | elements/MyVehicle.js:364-376 | only the wheel rotation changes, to the wheel angle of the current intent and budget |
| Kinematics.NearSymmetric | elements/MyVehicle.js:399-401 | the strict box test of half-width 1 gives the same answer whichever car asks |
| Kinematics.AwayFrom | elements/MyVehicle.js:409-413 | the push is -1.5 below the other coordinate and +1.5 otherwise (a tie pushes +1.5), and it always widens the gap by exactly 1.5 |
| Kinematics.Collide | elements/MyVehicle.js:408-418 | each axis moves exactly 1.5 away from the other point; the heading gains exactly 30 degrees and the body follows it; wheels reset; nothing else changes; the car ends outside the box |
| Kinematics.ApplyEffect | elements/MyVehicle.js:423-480 | without a running effect nothing changes; otherwise the timer drops by exactly 1, the kind is never cleared, steering and laps are untouched, each kind runs its own tick, and both invariants are kept |
| Kinematics.SpeedTick | elements/MyVehicle.js:425-436 | at 100 the speed becomes 1.7 × max and the heading 0; at 1 the speed returns to max; any other tick only counts down |
| Kinematics.PortalTick | elements/MyVehicle.js:437-448 | at 10 the car jumps to (-65, 30) facing 200 degrees; any other tick only counts down |
| Kinematics.DizzyTick | elements/MyVehicle.js:449-455 | dizzy switches on at 200 and off at 1; any other tick only counts down |
| Kinematics.BlockTick | elements/MyVehicle.js:456-462 | block switches on at 250 and off at 100, not at expiry; any other tick only counts down |
| Kinematics.SlowTick | elements/MyVehicle.js:463-476 | at 200 speed and both limits are scaled by 0.4; at 1 the default limits 0.4 / -0.2 return; any other tick only counts down |
| Kinematics.QuietTick | elements/MyVehicle.js:423-480 | off its trigger ticks an effect tick changes only the timer, by one |
| Kinematics.Move | elements/MyVehicle.js:489-514 | position integrated along the heading; heading wrapped, then turned by 10·speed degrees (right before left) while an intent is set; effects, limits, laps unchanged; both invariants kept |
| Kinematics.Advance | elements/MyVehicle.js:489-492 | x -= speed·sin(angle), z -= speed·cos(angle), the heading is wrapped into one turn, nothing else changes |
| Kinematics.SpendTurnBudget | elements/MyVehicle.js:495-514 | the budget drops by one and the intent (right checked first) is dropped exactly when the budget reaches 0 |
| Kinematics.Update | elements/MyVehicle.js:485-517 | the effect tick runs first; a car blocked after it neither moves nor turns; otherwise it moves; the effect kind is kept and both invariants hold |
| Kinematics.TurnLasts | elements/MyVehicle.js:495-514 | an intent with k ticks of budget is still set with k - j left after j < k movement ticks and is cleared with budget 0 after exactly k |
| Kinematics.TurnLeftLastsEight | elements/MyVehicle.js:505-514 | after `turnLeft` the left intent survives 7 movement ticks and is gone, with budget 0, after the 8th |
| Kinematics.TurnRightLastsEight | elements/MyVehicle.js:495-504 | after `turnRight` the right intent survives 7 movement ticks and is gone, with budget 0, after the 8th |
| Kinematics.QuietTicks | elements/MyVehicle.js:423-480 | n effect ticks with no trigger tick among the timer values passed change only the timer, by n |
| Kinematics.EffectExpires | elements/MyVehicle.js:423-480 | a running effect reaches timer 0 after as many ticks as its timer shows, keeps its kind, and from then on the effect tick changes nothing |
| Kinematics.BlockWindow | elements/MyVehicle.js:456-462 | a Block picked up at 250 keeps the car blocked after each of ticks 1..150 and frees it after tick 151, with 99 ticks left |
| Kinematics.DizzyWindow | elements/MyVehicle.js:449-455 | a Dizzy picked up at 200 inverts steering after each of ticks 1..199 and is over, timer 0, after tick 200 |
| Kinematics.SlowWindow | elements/MyVehicle.js:463-476 | a Slow picked up at 200 holds the limits at 0.4 × their values through tick 199, restores the defaults at tick 200, and leaves the speed scaled once |
| Kinematics.SpeedWindow | elements/MyVehicle.js:425-436 | a Speed picked up at 100 launches the car at 1.7 × max facing 0 and leaves it at max speed, timer 0, after tick 100 |
| Vehicles.Vehicle.constructor | elements/MyVehicle.js:16-40 | the fields hold exactly `NewCar` and the invariants hold |
| Vehicles.Vehicle.Accelerate | elements/MyVehicle.js:332-334 | the new state is `Kinematics.Accelerate` of the old one and the invariants are kept |
| Vehicles.Vehicle.Brake | elements/MyVehicle.js:339-341 | the new state is `Kinematics.Brake` of the old one and the invariants are kept |
| Vehicles.Vehicle.TurnLeft | elements/MyVehicle.js:346-350 | the new state is `Kinematics.TurnLeft` of the old one |
| Vehicles.Vehicle.TurnRight | elements/MyVehicle.js:355-359 | the new state is `Kinematics.TurnRight` of the old one |
| Vehicles.Vehicle.TurnWheels | elements/MyVehicle.js:364-376 | the new state is `Kinematics.TurnWheels` of the old one |
| Vehicles.Vehicle.Face | elements/MyVehicle.js:414-416 | the heading and the body are set to the new angle and the wheels to the current intent |
| Vehicles.Vehicle.CheckCollision | elements/MyVehicle.js:399-401 | true exactly when both axis distances are below 1, which is `Kinematics.Near` of the car's state |
| Vehicles.Vehicle.Collide | elements/MyVehicle.js:408-418 | the new state is `Kinematics.Collide` of the old one and validity is unchanged |
| Vehicles.Vehicle.ApplySpecialEffect | elements/MyVehicle.js:423-480 | the in-place switch leaves exactly `Kinematics.ApplyEffect` of the old state |
| Vehicles.Vehicle.SpeedTick | elements/MyVehicle.js:425-436 | the Speed branch leaves exactly `Kinematics.SpeedTick` of the old state |
| Vehicles.Vehicle.PortalTick | elements/MyVehicle.js:437-448 | the Portal branch leaves exactly `Kinematics.PortalTick` of the old state |
| Vehicles.Vehicle.DizzyTick | elements/MyVehicle.js:449-455 | the Dizzy branch leaves exactly `Kinematics.DizzyTick` of the old state |
| Vehicles.Vehicle.BlockTick | elements/MyVehicle.js:456-462 | the Block branch leaves exactly `Kinematics.BlockTick` of the old state |
| Vehicles.Vehicle.SlowTick | elements/MyVehicle.js:463-476 | the Slow branch leaves exactly `Kinematics.SlowTick` of the old state |
| Vehicles.Vehicle.Update | elements/MyVehicle.js:485-517 | the new state is `Kinematics.Update` of the old one and the invariants are kept |
| Vehicles.Vehicle.Move | elements/MyVehicle.js:489-514 | the part of `update` after the block test leaves exactly `Kinematics.Move` of the old state |
| Vehicles.Vehicle.Advance | elements/MyVehicle.js:489-492 | integration and wrap leave exactly `Kinematics.Advance` of the old state |
| Vehicles.Vehicle.SpendTurnBudget | elements/MyVehicle.js:497-503 | the budget bookkeeping leaves exactly `Kinematics.SpendTurnBudget` of the old state |
| Routes.MaxDuration | elements/MyRoute.js:32-34 | 22 for normal, 18 for hard, 0 for any other difficulty |
| Routes.Durations | elements/MyRoute.js:79-80 | the normal table for normal, the hard table for hard, no durations otherwise |
| Routes.PrefixSums | elements/MyRoute.js:63-71 | same length as the input, and element i is the sum of the first i + 1 durations |
| Routes.GenerateTimes | elements/MyRoute.js:63-71 | the running-sum loop returns exactly the prefix sums |
| Routes.PrefixSumsIncrease | elements/MyRoute.js:63-71 | when every duration after the first is positive, the key times strictly increase |
| Routes.SumNormal | elements/MyRoute.js:79 | the normal table sums to 22 |
| Routes.SumHard | elements/MyRoute.js:80 | the hard table sums to 18 |
| Routes.KeyTimesFitTheClip | elements/MyRoute.js:79-80 | for both difficulties: 9 key times for the 9 key points, starting at 0, strictly increasing, ending at the clip length; the first and last key points are equal |
| Routes.Route.constructor | elements/MyRoute.js:12-37 | the difficulty is kept, the clip length is chosen from it, not paused, position track enabled, no mixer |
| Routes.Route.PlayAnimation | elements/MyRoute.js:77-139 | a mixer exists at time scale 1, built with the key times of the route's difficulty; the pause and track switches are kept |
| Routes.Route.CheckAnimationStateIsPause | elements/MyRoute.js:151-156 | the time scale is 0 exactly when paused, 1 otherwise; nothing else changes |
| Routes.Route.Update | elements/MyRoute.js:178-185 | nothing changes before a mixer exists; afterwards the time scale is 0 exactly when paused |
| Sprites.Column | elements/MySprite.js:39 | the column is in [0, 16) and is the code's remainder modulo 16 |
| Sprites.Row | elements/MySprite.js:40 | the row is 15 - code div 16; it is at most 15 and lies in [0, 15] exactly when the code is below 256 |
| Sprites.GlyphInSheet | elements/MySprite.js:39-40 | every column is a sheet column, and the row is a sheet row exactly for codes below 256 |
| Sprites.CaseKerning | elements/MySprite.js:58-121 | 'DIFFICULTY' gets -0.2 on 'I' plus every 'Normal' adjustment; 'Normal' gets the 'Normal' adjustments |
| Sprites.Kerning | elements/MySprite.js:58-128 | the whole adjustment is the switch case plus, for texts starting with "Time", the "Time" rule; a text with neither gets none |
| Sprites.GlyphAt | elements/MySprite.js:37-56 | sprite i is a glyph at the running x after one more advance, minus offset·length/2, in front of the plane, with the character's column and row |
| Sprites.Layout | elements/MySprite.js:37-135 | the group has length + 1 children: one glyph per character in order, then the background plane |
| Sprites.Build | elements/MySprite.js:34-136 | the loop with the running x builds exactly the layout |
| Sprites.Spacing | elements/MySprite.js:51-128 | consecutive sprites are one advance plus the first character's kerning apart |
| Sprites.AdvanceIsProduct | elements/MySprite.js:51 | n plain advances of the offset are n × offset |
| Sprites.UniformCursor | elements/MySprite.js:58-121 | a text with no case that does not start with "Time" moves the cursor by plain advances only |
| Sprites.UniformLayout | elements/MySprite.js:51-53 | in such a text sprite i sits i + 1 plain advances past pos, minus the centre |
| Sprites.DifficultyFallsThrough | elements/MySprite.js:93-99 | 'DIFFICULTY' has no break: its adjustment is its own 'I' rule plus the 'Normal' adjustment |
| Sprites.TimeAdjustmentsAdd | elements/MySprite.js:122-128 | texts starting with "Time" get the "Time" adjustments on top of any switch case, and only those when there is no case |
| Readers.TrackControlPoints | game/MyReader.js:57-70 | nine control points; the first and the last are both (0, 0, 0) |
| Readers.ParkedCar | game/MyReader.js:224-227 | a parked catalog car is a new car at the catalog position, heading and body turned to the catalog angle, with both invariants |
| Readers.Reader.constructor | game/MyReader.js:17-30 | nothing exists yet: no scenery, no cars, no track, no power-ups, no obstacle templates |
| Readers.Reader.Init | game/MyReader.js:35-78 | afterwards everything exists; each element is created only when absent, and what existed is kept; new cars, power-ups and templates are exactly the catalogs |
| Readers.Reader.InitScenery | game/MyReader.js:36-52 | ground, poles, stadium, billboard and parks exist; existing poles and parks are kept, new poles are the catalog |
| Readers.Reader.InitElements | game/MyReader.js:54-77 | cars, track, power-ups and templates exist; each is created only when absent and equals its catalog when created |
| Readers.Reader.InitCars | game/MyReader.js:54-55 | the cars are kept when there are some, and otherwise become the six fresh catalog cars |
| Readers.Reader.CreateLights | game/MyReader.js:99-147 | the nine pole positions are appended in order |
| Readers.Reader.AddCar | game/MyReader.js:224-228 | a fresh parked car is appended and nothing else changes |
| Readers.Reader.CreateCars | game/MyReader.js:223-262 | exactly six fresh cars are appended in catalog order (player choices 0-2, opponent choices 3-5); existing cars are kept and distinctness is preserved |
| Readers.Reader.CreatePowerUps | game/MyReader.js:267-278 | Speed at (2, 0, 80) and then Portal at (-44, 0, 0.5) are appended |
| Readers.Reader.CreateObstacles | game/MyReader.js:283-295 | fresh Slow, Block and Dizzy templates are appended in that order at the catalog positions, with their durations and meshes |
| Race.SecondsFloor | game/MyGame.js:676 | whole seconds of a millisecond count are its quotient by 1000, bracketed by it |
| Race.Countdown | game/MyGame.js:675-679 | the start clock grows by 17 every gameplay frame, paused or not; in the fourth second the race is forced unpaused and the route starts, otherwise the pause flag is kept; cars, other clocks, other flags, obstacles and clip length are kept |
| Race.LapCheck | game/MyGame.js:623-629 | in the finish box with more than ten seconds on the lap clock a lap is added and the lap clock restarts at 0; otherwise nothing changes |
| Race.LapClock | game/MyGame.js:685-686 | only the lap clock (+17) and the recorded player time change |
| Race.LapStage | game/MyGame.js:684-688 | before the third lap, in the finish box with the advanced lap clock past ten seconds, a lap is added and the lap clock restarts; otherwise the lap count is kept, and from the third lap on nothing changes |
| Race.PlayerStage | game/MyGame.js:690-693 | only the player's car changes: it is pushed away by `Collide` when near the opponent, otherwise moved by `Update`; its effect kind is kept |
| Race.OffTrackStage | game/MyGame.js:594-618 | only the player's car changes, and its effect and timer are kept |
| Race.FirstPowerUpFrom | game/MyGame.js:636-643 | the index found is a power-up the car hits with none hit before it; none is found only when no power-up is hit |
| Race.FirstObstacleFrom | game/MyGame.js:645-651 | the index found is a placed obstacle the car hits with none hit before it; none is found only when none is hit |
| Race.Pickup | game/MyGame.js:634-653 | the opponent and the placed obstacles are kept; with a running timer nothing at all changes |
| Race.OpponentStage | game/MyGame.js:697-703 | only the opponent's car changes |
| Race.EndStage | game/MyGame.js:708-710 | with every lap run and the race length passed the race is over, keys off, obstacles gone; otherwise nothing changes |
| Race.Driven | game/MyGame.js:682-703 | the stages before the end test keep the phase, the clip length, the obstacles and the listeners |
| Race.Running | game/MyGame.js:682-710 | an unpaused gameplay frame either stays in gameplay with its keys and obstacles, or ends the race with keys off, results listeners on and no obstacles |
| Race.PausedFrame | game/MyGame.js:675-681 | while the race stays paused a frame only advances the start clock by 17: race clock, lap clock, laps and both cars untouched |
| Race.CountdownUnpauses | game/MyGame.js:676-679 | in the fourth second of the start clock the frame runs unpaused, starts the route, and advances the race clock by 17 |
| Race.CountdownFrames | game/MyGame.js:675-679 | counted from 0, the start clock forces unpausing exactly in frames 177 to 235, and 'q' is accepted from frame 236 |
| Race.RunningLaps | game/MyGame.js:684-694 | after the pause test only the lap stage changes the lap count |
| Race.TickCountsLap | game/MyGame.js:684-688 | on a frame that runs unpaused the lap count grows by one exactly when the car is in the finish box before the third lap with the lap clock past ten seconds, and is kept otherwise |
| Race.TickAdvancesStartClock | game/MyGame.js:675 | every gameplay frame advances the start clock by 17, paused or not |
| Race.FramesRunStartClock | game/MyGame.js:675 | after n gameplay frames the start clock has moved on by 17 n, the clock `Race.CountdownFrames` counts with |
| Race.LapsBounded | game/MyGame.js:684-688 | a frame never takes the lap count above 3 |
| Race.LapDebounce | game/MyGame.js:623-629 | the lap stage adds a lap if and only if the car is in the finish box, before the third lap, with the lap clock past ten seconds; a counted lap restarts the lap clock |
| Race.TickLapClock | game/MyGame.js:623-629 | a frame moves the lap clock on by at most 17 and counts no lap while that keeps it below 11000 ms |
| Race.NoLapWhileCooling | game/MyGame.js:623-629 | n frames count no lap while n more ticks keep the lap clock below 11000 ms |
| Race.LapsAreFramesApart | game/MyGame.js:625-626 | once a lap restarts the lap clock at 0, the next 647 frames count no lap, paused or not and wherever the car goes |
| Race.OffTrackEdge | game/MyGame.js:603-617 | leaving the track scales speed and both limits by 0.2 once; staying off changes nothing; coming back restores 0.4 / -0.2 and keeps the speed |
| Race.OffTrackFollowsTrack | game/MyGame.js:603-617 | the off-track flag records the latest track test |
| Race.PowerUpsFirst | game/MyGame.js:636-643 | with no running timer and some power-up hit, the first power-up hit sets kind and duration, and the race pauses with the picker open |
| Race.ObstaclesSecond | game/MyGame.js:645-651 | with no power-up hit, the first placed obstacle hit sets kind and duration and nothing else; with no hit nothing changes |
| Race.HitIsKnown | game/MyGame.js:634-651 | what the scan finds with a positive duration is a known effect kind |
| Race.PickupKeepsEffectOk | game/MyGame.js:634-653 | a pickup keeps the car's effect invariant |
| Race.OpponentGate | game/MyGame.js:697-703 | past the race length the opponent stage changes nothing; inside it the opponent collides or moves, never both |
| Race.EndsOnlyWhenOver | game/MyGame.js:708-710 | a frame ends the race only unpaused, with three laps, the race length passed, keys off and obstacles gone |
| Race.TickKeepsListeners | game/MyGame.js:658-711 | a gameplay frame either keeps the race going with its key listeners and obstacles or ends it with results listeners on; a waiting template is kept |
| Race.KeyKeepsListeners | game/MyGame.js:157-182 | any key but Escape keeps the race and its listeners; Escape ends it |
| Race.GameOverResult | game/MyGame.js:305-312 | an early end records 999 for the player and the elapsed seconds for the opponent; otherwise the opponent gets 3·(clip + 1) and the player time is kept |
| Race.EarlyEndLoses | game/MyGame.js:305-312 | with either route an early end never lets the player win |
| Race.PausedKeysIgnored | game/MyGame.js:157-170 | while paused, 'w', 's', 'a', 'd' and any other key but Escape, 'e' and 'q' change nothing |
| Race.DizzyInverts | game/MyGame.js:159-170 | while dizzy, 'a' turns right and 'd' turns left |
| Race.PauseToggle | game/MyGame.js:174-181 | 'q' flips the pause exactly when not picking and past the countdown, and touches neither the car nor the race clock |
| Race.PlacementAppendsOne | game/MyGame.js:242-258 | picking a template then clicking the track appends exactly one obstacle, resumes the race, clears the picker flags, and keeps cars, clocks, phase and the other listeners |
| Games.StartLabel | game/MyGame.js:659-670 | the label shows exactly when the name is not empty and it was shown or a name and both cars are chosen; it newly appears only with a non-empty name and both cars |
| Games.Lineup | game/MyGame.js:140-148 | the car is at the start position facing 0, with laps, speed and timer kept |
| Games.LineupIsNewCar | game/MyGame.js:364-377 | a freshly parked catalog car lined up for the race is a brand-new car at the start position |
| Games.RaceRouteDifficulty | game/MyGame.js:137-138 | the race runs the chosen difficulty's route only when no route exists; otherwise the existing one |
| Games.ScanTrack | game/MyGame.js:594-601 | the loop finds the car on the track exactly when some sample's box holds it |
| Games.FindPowerUp | game/MyGame.js:636-643 | the loop returns exactly the first power-up hit |
| Games.FindObstacle | game/MyGame.js:645-651 | the loop returns exactly the first placed obstacle hit |
| Games.PlaceCar | game/MyGame.js:283-290 | the car is moved to (x, z) with heading and body at the angle, nothing else changes |
| Games.PenalizeOffTrack | game/MyGame.js:603-617 | the car's new state is the edge-triggered penalty of the track test |
| Games.TakeEffect | game/MyGame.js:638-639 | the car takes exactly the kind and duration |
| Games.LineUp | game/MyGame.js:140-148 | both cars are at their start positions facing 0 |
| Games.Game.Countdown | game/MyGame.js:675-679 | the fields change as `Race.Countdown` changes the race; the route starts in the fourth second |
| Games.Game.Elapse | game/MyGame.js:682 | the race clock advances by 17, as `Race.Elapse` |
| Games.Game.LapStage | game/MyGame.js:684-688 | the fields change as `Race.LapStage` |
| Games.Game.LapCompleted | game/MyGame.js:623-629 | the fields change as `Race.LapCheck` |
| Games.Game.PlayerStage | game/MyGame.js:690-693 | the player's car changes as `Race.PlayerStage` |
| Games.Game.OffTrack | game/MyGame.js:594-618 | the player's car changes as `Race.OffTrackStage` |
| Games.Game.SpecialEffect | game/MyGame.js:634-653 | the fields change as `Race.Pickup` |
| Games.Game.PickObstacle | game/MyGame.js:194-198 | paused, not followed, picking, and the template listener attached, as `Race.PickObstacle` |
| Games.Game.OpponentStage | game/MyGame.js:697-703 | the opponent and the route change as `Race.OpponentStage` |
| Games.Game.SpinObstacles | game/MyGame.js:705-706 | every placed obstacle spins by exactly 0.01 |
| Games.Game.SpinStage | game/MyGame.js:705-706 | every placed obstacle spins by exactly 0.01 and the race is unaffected |
| Games.Game.EndStage | game/MyGame.js:708-710 | the fields change as `Race.EndStage` |
| Games.Game.EndGameplay | game/MyGame.js:266-294 | keys off, obstacles removed, cars parked, then the results, as `Race.EndGameplay` |
| Games.Game.GameOver | game/MyGame.js:299-316 | the results state and the recorded times, as `Race.GameOver` |
| Games.Game.RunPlayer | game/MyGame.js:682-693 | race clock, lap stage and player move, as the composed functions |
| Games.Game.RunChecks | game/MyGame.js:694-703 | track test, pickup and opponent, as the composed functions |
| Games.Game.RunFrame | game/MyGame.js:682-710 | the unpaused part of a frame changes the race as `Race.Running` |
| Games.Game.Frame | game/MyGame.js:675-710 | a gameplay frame changes the race as `Race.Tick` |
| Games.Game.GameplayTick | game/MyGame.js:671-711 | a gameplay frame changes the race as `Race.Tick` and keeps the game's invariant |
| Games.Game.DriveKeys | game/MyGame.js:157-170 | the four driving listeners change the car as `Race.DriveKey` |
| Games.Game.ToggleKeys | game/MyGame.js:174-181 | 'e' and 'q' change the flags as `Race.ToggleKey` |
| Games.Game.GameListener | game/MyGame.js:171-182 | the game listener changes the race as `Race.GameKey` |
| Games.Game.KeyDown | game/MyGame.js:184-188 | with the key listeners attached the fields stay coupled to the race outside the menu and it changes as `Race.KeyDown`; otherwise the game and both cars are unchanged; the invariant is kept |
| Games.Game.HandleKey | game/MyGame.js:157-182 | the five listeners in order change the race as `Race.KeyDown` |
| Games.Game.ClickTemplate | game/MyGame.js:207-220 | while the picker waits, the template listener detaches and template i waits to be placed, as `Race.PickTemplate` |
| Games.Game.ClickTrack | game/MyGame.js:242-258 | with a waiting template, one fresh obstacle of its kind is appended at (x, 1, z), the race resumes with the camera following and the picker cleared, as `Race.PlaceAt`; the phase is kept and the fields stay coupled outside the menu; otherwise nothing changes |
| Games.Game.Place | game/MyGame.js:251-257 | the obstacle is appended and the picker flags cleared, as `Race.PlaceAt` |
| Games.Game.TypeName | game/MyGame.js:62 | in the menu the name becomes the typed text |
| Games.Game.ClickDifficulty | game/MyGame.js:68-83 | in the menu a click on the normal or hard label sets that difficulty |
| Games.Game.ClickCar | game/MyGame.js:86-110 | in the menu car i becomes the player's pick when i < 3 and the opponent's otherwise; the other pick is kept |
| Games.Game.MenuTick | game/MyGame.js:659-670 | a menu frame shows or hides the start label as `StartLabel` |
| Games.Game.ClickStart | game/MyGame.js:113-130 | with the start label shown, the label goes and the race starts on the existing route if there is one, else on a new one of the chosen difficulty; both cars are lined up, the race is paused and followed, keys attached, clocks and obstacles kept; otherwise nothing changes |
| Games.Game.Gameplay | game/MyGame.js:136-189 | an existing route is kept, otherwise a new one of the chosen difficulty is built; both cars lined up; gameplay, paused and followed, keys attached; clocks and obstacles kept |
| Games.Game.RebuildCars | game/MyGame.js:333-335 | the reader's cars are replaced by six fresh catalog cars |
| Games.Game.ClickReturn | game/MyGame.js:320-350 | from the results, back to the menu with a new route of the finished race's difficulty, normal chosen and no picks; otherwise nothing changes |
| Games.Game.ReturnToMenu | game/MyGame.js:326-347 | results listeners off, a new route of the finished race's difficulty without a mixer, name, difficulty, both picks and all clocks reset, new catalog cars, and the menu |
| Games.Game.LeaveResults | game/MyGame.js:327-347 | the route is built with the difficulty before the reset, then name, difficulty, picks, camera, pause and clocks are reset, and the menu comes back |
| Games.Game.ReturnToMenuCorrected | game/MyGame.js:326-347 | the return click as intended: the same resets and new cars, with no route left for the next race |
| Games.Game.MenuChoices | game/MyGame.js:62-111 | a difficulty click, a name, a car among the first three, one among the rest and a menu frame leave the start label shown with those choices |
| Games.Game.ChooseRace | game/MyGame.js:113-138 | after a menu session and the start click the race runs on the existing route if any, else on one of the chosen difficulty, with its clip length |
| Games.Game.RaceAfterReturnAsWritten | game/MyGame.js:332 | after a hard race, the return click and a session that chooses normal start a race on the hard route: 18-second clip, 57 seconds instead of 69 |
| Games.Game.RaceAfterReturnCorrected | game/MyGame.js:137-138 | after the corrected return, the next race runs on the route and clip length of the chosen difficulty |
| Games.Game.ClickRestart | game/MyGame.js:352-380 | from the results, a new race on a fresh route with fresh cars; otherwise nothing changes |
| Games.Game.Restart | game/MyGame.js:358-377 | a fresh route of the same difficulty, fresh cars with the same picks at the start positions as brand-new cars, clocks reset, and gameplay |
| Games.Game.PrepareRestart | game/MyGame.js:359-375 | the restart click before `gameplay`: results listeners off, fresh route, fresh parked picks, clocks reset |
| Games.Game.LeaveResultsForRace | game/MyGame.js:359-375 | a fresh route of the same difficulty, camera and pause off, clocks at 0 |
| Games.Game.TakeNewCars | game/MyGame.js:364-369 | new catalog cars, and both picks taken again at their indices |
| Games.Game.MainMenu | game/MyGame.js:53-54 | the menu state with no start label |
| Games.Game.constructor | game/MyGame.js:16-48 | defaults (normal, picks 0 and 3, no name, no cars, no route), the reader initialised with its catalogs, and the menu |
| Games.Game.Update | game/MyGame.js:658-715 | a menu frame updates only the start label; a gameplay frame leaves the game outside the menu with its fields coupled to `Race.Tick` of the race; a results frame changes nothing of the game's state |

## Left out

- Rendering is not modelled: meshes, materials, textures, shaders, lights, the skybox, the parking lots, the billboard, the stadium and the pole geometry. The reader records only that each scenery element exists.
- The DOM is not modelled: `createHUD`, `updateHUD`, `deleteHUD`, the menu's input element and the `MyMenu`/`MyOver` displays. The HUD rank comparison is not modelled either.
- The camera and `followCar` are not modelled; only the `follow` flag is.
- The fireworks of the results screen are not modelled, because they use `Math.random` and floating-point particles. Only the winner test `playerTime < autoTime` is kept, as `Race.PlayerWins`.
- Raycasting and mouse normalisation are replaced by click events. They are "car i clicked", "normal or hard label clicked", "start label clicked", "template i clicked" and "track point (x, z) clicked". Each click hits one target.
- The `document.addEventListener` wiring is recorded as flags on the race: the key listeners, the results listeners, the picker's template listener, and the waiting template for the track listener. The start listener is the `startShown` flag.
- Race.PickObstacle: the picker's template listener is one flag, so at most one is attached. In the source every `pickObstacle` adds a new pick closure (game/MyGame.js:207-222), and only a template click removes it. Escape during the picker (game/MyGame.js:172) leaves it attached, and a restart or a new race keeps it. The next power-up hit then adds a second one. The same holds for `Games.Game.PickObstacle`.
- Games.Game.ClickTemplate: with two pick closures attached, one template click runs `placeObstacle` twice in the source (game/MyGame.js:217-218). The model records one waiting template, and a later template click replaces an earlier waiting one, where the source would place the earlier template.
- Games.Game.ClickTrack: each `placeObstacle` overwrites `this.placeListener` (game/MyGame.js:242), and a track click removes only the listener that field names (game/MyGame.js:249). With two closures one track listener stays attached for good. Every later track click, in any phase, then appends an obstacle and resumes the race (game/MyGame.js:250-257), where the model's track click changes nothing without a waiting template. The picker contracts are exact only while at most one pick closure is attached.
- `updateLights` and the selector rings only aim lights and draw rings, so they are not modelled.
- The y coordinate of cars is not modelled, and neither is the y = -5 that `endGameplay` gives every car.
- `Math.sin` and `Math.cos` are parameters (`Trig`). `degToRad` is exact multiplication by π/180 over the reals.
- Basics.TurnRem: it is exact real arithmetic with the literal 2π that `2 * Math.PI` prints as. It does not model IEEE double rounding.
- The track's samples are a parameter of the frame. `getPoints` on the CatmullRomCurve3 is three.js code, which is not part of this model.
- The three.js Clock is not modelled: its start and stop on 'q', pick and place, and `getDelta`. Neither is the AnimationMixer's `update(delta)`, `setMixerTime`, `checkTracksEnabled`, `debugKeyFrames` or keyframe interpolation. The route keeps only whether a mixer exists, its time scale and the key times it was built with.
- The opponent's motion along the route is not modelled. It is driven by the mixer, so the model's opponent position changes only through its own `update` and `collide`.
- The key rotations (quaternions) of `playAnimation` are not modelled.
- The wall-clock shader time that `MyObstacle.update` writes is not modelled, because it reads `performance.now()`.
- Games.Game.GameplayTick: states the race transition and the invariant, not the per-obstacle spin. `Games.Game.SpinStage` states the spin, and the race functions do not read it.
- Games.Game.Update: a gameplay frame states the race transition and the invariant, not the per-obstacle spin, as for `Games.Game.GameplayTick`.
- Games.Game.ClickReturn: states phase, route, difficulty and picks only. `Games.Game.ReturnToMenu` states the full reset.
- Games.Game.ClickRestart: states phase and freshness only. `Games.Game.Restart` states the full reset.
- Games.Game.LeaveResultsForRace: does the camera, pause and clock resets before the new cars, where the source does them after. Neither step reads what the other writes.
- Games.Game.constructor: covers the constructor, `init` and `mainMenu` together, so the reader is never null.
- Characters are Unicode scalar values. `charCodeAt` returns UTF-16 code units, which differ only outside the Basic Multilingual Plane.
- The player name is `Option<string>`, where `None` stands for null.
- Race.HitsPowerUp: a power-up without a mesh counts as a miss, where the source would fail on its missing position. The game's power-ups are always the reader's catalog, whose meshes all exist, so this case never arises.
- Restart keeps `pickingObstacle` and a waiting template as they were, as the source does.

## Findings

| source | as written | input that shows it | evidently intended | confidence | as-written member | corrected member |
|---|---|---|---|---|---|---|
| game/MyGame.js:332 | The return click builds the next race's route with the finished race's difficulty, before the difficulty resets to normal. `gameplay` then keeps any existing route (game/MyGame.js:137-138), so the next race ignores the newly chosen difficulty. | Finish a hard race, click return, choose normal, then start. The race runs the hard route: an 18-second clip and a 57-second race instead of 22 and 69. | The next race runs the route of the difficulty chosen for it. | not executed | Games.Game.RaceAfterReturnAsWritten | Games.Game.RaceAfterReturnCorrected |
