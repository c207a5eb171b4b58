# traffic-sim core in Dafny

A model of `src/scenario.rs` of traffic-sim, a small top-down traffic
simulation. A `Scenario` holds a fixed population of cars. Each frame,
`Scenario::tick` runs 50 substeps. A substep first takes a snapshot of every
car as a *shell* (a copy without a driver). It then updates the cars in index
order, and every update reads only that snapshot.

One car update (`Car::tick`) has five stages:

1. **Arrival test.** If the car has arrived, its driver picks a new waypoint.
2. **Steering.** The wheel turns toward the target, rate-limited by the
   turning radius and clamped to ±30 degrees.
3. **Yaw integration.** The heading is advanced.
4. **Motion.** The car moves `pixels_per_tick` along its new heading.
5. **Speed regulation.** The speed moves toward the waypoint's speed by
   √acceleration, capped at 80.

The one driver, `DriveHomeDriver`, works as follows:

- It looks at every other car at a different location.
- It scores each one by the wrapped `u8` difference of the red channels.
- It follows the car with the smallest positive score: the waypoint is 20
  pixels behind that car, at speed 80.
- If no car qualifies, it goes to a random point of the 1000×1000 arena at
  speed 65.

Files:

- `numerics.dfy` (`Numerics`): `u8`, wrapping subtraction, and the float
  remainder `%` by 360 (truncating, with the dividend's sign).
- `geometry.dfy` (`Geometry`): vectors and the arena. Also `Math`, which
  bundles `sin`, `cos`, `atan2` and `sqrt` as uninterpreted functions. The
  facts a proof needs about them (√x > 0 for x > 0, sin² + cos² = 1,
  sin 0 = 0, cos 0 = 1, atan2 ∈ [-π, π]) are predicates. Each of the first
  three is required by the lemmas that use it; the atan2 range is only the
  premise of one clause of `Cars.TargetHeading`'s contract.
- `car_state.dfy` (`CarModel`): the value of a car's fields (`CarState`),
  `shell_copy`, `pixels_per_tick` and `behind`.
- `driver.dfy` (`Drivers`): leader selection and `next_destination`.
- `car.dfy` (`Cars`): the stages of `Car::tick` as functions, and the pure
  update `Step`. The class `Car` holds the updated fields as mutable fields.
  Its `Tick` method performs the five stages in place and is proved equal
  to `Step`.
- `scenario.dfy` (`Scenarios`): the pure scheduler (`Substep`, `Ticked`) and
  the fleet `with_cars` builds (`Fleet`). The class `Scenario` has methods
  `WithCars`, `Tick` and `Shuffle`, which change its car list and its cars in
  place. `WithCars` is proved against `Fleet` and `Tick` against `Ticked`;
  `Shuffle` is proved to permute the cars (the multisets of cars and of their
  states are kept).

Randomness is a parameter:

- the fallback point of the driver is `pick`, a point of the arena;
- during a scenario tick, car `i` in substep `k` gets `picks(k, i)`;
- the draws of `with_cars` are a sequence of `CarDraw`;
- the swaps of `shuffle` are a sequence of indices `swaps[i] ∈ [0, i]`.

Several conventions one might expect do not hold in the code, and the model
follows the code: a heading in [0, 360), a heading error in (-180, 180], a
speed that never goes below 0, and `behind(20)` at (0, 20) for a car at the
origin with heading 0. In detail:

- **Heading range.** The heading is wrapped by the float remainder, which
  keeps the dividend's sign. It therefore ends in (-360, 360), not [0, 360)
  (`Cars.Step`, `Cars.YawIntegration`).
- **Heading error range.** The heading error is computed with the same
  remainder. It lies in (-540, 180), not in (-180, 180]
  (`Cars.HeadingError`). In some cases the wheel turns the long way round
  (`Cars.HeadingErrorPastHalfTurn`).
- **No speed floor.** Nothing stops the speed from going negative; only the
  cap at 80 is applied.
- **`pixels_per_tick`.** It divides by 3600, so speed 80 gives 34/9 pixels
  per substep.
- **`behind`.** It subtracts `dist` times (-sin h, cos h). At the origin with
  heading 0, `behind(20)` is (0, -20) (`CarModel.BehindAtOrigin`).
- **Zero wheel angle.** The yaw `speed / (360 / wheel_angle)` has a divisor
  of infinity when the wheel angle is 0, so the yaw is 0. The model writes
  it as speed·wheel/360.
- **Single pass.** The loop `for _ in 0..1` in `Car::tick` runs once, so it
  is modelled as straight-line code.

## Model

| member | source | states |
|---|---|---|
| Numerics.WrapSub | src/scenario.rs:45-48 | the `u8` difference wraps: b + r ≡ a (mod 256); it is the plain difference when b ≤ a; it is 0 exactly when a = b |
| Numerics.Fmod360 | src/scenario.rs:163 | the float remainder by 360: in [0, 360) for non-negative input and in (-360, 0] for non-positive input; it differs from the input by a whole number of turns |
| Numerics.Fmod360Small | src/scenario.rs:180 | a value strictly within one turn either way is left unchanged by the remainder |
| CarModel.CarState.Shell | src/scenario.rs:121-134 | a shell copy has no driver and equals the car in every other field |
| CarModel.PixelsPerTick | src/scenario.rs:136-143 | the distance per substep is zero exactly at speed 0 and has the sign of the speed; at speed ≤ 80 it is at most 34/9 pixels |
| CarModel.Behind | src/scenario.rs:199-204 | the point `dist` back from the car along its heading direction (-sin h, cos h); at distance 0 it is the car's location |
| CarModel.BehindAtOrigin | src/scenario.rs:199-204 | at the origin with heading 0, `behind(20)` is (0, -20) |
| Drivers.Score | src/scenario.rs:45-53 | a car's score is the wrapped difference of the red channels: 0 exactly when they are equal, me.red - c.red when c.red ≤ me.red, and 256 + me.red - c.red otherwise |
| Drivers.Qualifies | src/scenario.rs:43-56 | a car may be followed exactly when it is at a different location and its red channel differs |
| Drivers.Pick | src/scenario.rs:55-60 | one fold step: a car that does not qualify leaves the running best as it is; a qualifying car with a strictly smaller score than the running best (or with no best yet) replaces it; a car whose score is not smaller leaves it |
| Drivers.Nearest | src/scenario.rs:42-61 | whatever the fold yields is one of the other cars, and one that qualifies |
| Drivers.NearestIsLeader | src/scenario.rs:42-61 | the fold yields no car exactly when no other car is at a different location with a positive red score; otherwise it yields the first car that has the smallest positive score |
| Drivers.LeaderUnique | src/scenario.rs:55-61 | the reference leader definition `IsLeaderAt` holds for at most one index |
| Drivers.NextDestination | src/scenario.rs:41-71 | the new waypoint's speed is 65 or 80 |
| Drivers.FallbackDestination | src/scenario.rs:63-70 | no car qualifies exactly when the waypoint's speed is 65; in that case the waypoint is the random arena point at speed 65 |
| Drivers.FollowDestination | src/scenario.rs:63-64 | when some car qualifies, the waypoint is 20 behind the selected leader, at speed 80 |
| Drivers.SoleCarFallsBack | src/scenario.rs:43 | when every other entry is at the car's own location, the car always falls back to the random point |
| Drivers.TwoCars | src/scenario.rs:41-71 | with one other car elsewhere, and with the car's own entry either first or second in the snapshot, the car follows the other exactly when their red channels differ, and otherwise falls back |
| Cars.StoppedWaypointUnreached | src/scenario.rs:149-150 | the arrival test (squared distance below the squared waypoint speed) never passes for a waypoint of speed 0 |
| Cars.Retarget | src/scenario.rs:149-158 | the waypoint after the arrival test is the old one unless the car has arrived; on arrival the car has a driver and the new waypoint's speed is 65 or 80 |
| Cars.TargetHeading | src/scenario.rs:160-161 | if atan2 returns an angle in [-π, π], the target heading lies in [-180, 180] degrees |
| Cars.HeadingError | src/scenario.rs:163 | the heading error lies in (-540, 180) |
| Cars.HeadingErrorPastHalfTurn | src/scenario.rs:163 | a target at -170 seen from heading 30 gives a heading error of -200, not 160 |
| Cars.SteerChange | src/scenario.rs:165-169 | the wheel change has the sign of the heading error and is at most the turning radius in size; it is the error itself or ± the turning radius |
| Cars.ClampWheel | src/scenario.rs:171-175 | the wheel angle ends in [-30, 30]: unchanged inside that range, and set to the nearer bound outside it |
| Cars.AngularStep | src/scenario.rs:177 | the yaw per substep is speed·wheel/360, including 0 for a straight wheel |
| Cars.Advance | src/scenario.rs:182-184 | the new position is the old one plus `distance` times the heading's direction vector |
| Cars.Regulate | src/scenario.rs:186-194 | below the target speed the speed goes up by √acceleration, otherwise down by √acceleration; either way it is capped at 80 |
| Cars.Step | src/scenario.rs:147-197 | one update leaves the wheel angle in [-30, 30], the heading in (-360, 360) and the speed ≤ 80; it changes the destination only on arrival, keeps the driver, and changes no field besides destination, wheel angle, heading, location and speed |
| Cars.ArrivalTest | src/scenario.rs:149-158 | the destination is kept unless the car is within the waypoint's speed of it; on arrival the driver chooses the new waypoint from the car's shell and the snapshot, at speed 65 or 80 |
| Cars.SteeringBound | src/scenario.rs:160-175 | from a wheel angle within the clamp, one update moves the wheel toward the heading error by at most the turning radius |
| Cars.SlewFromRest | src/scenario.rs:165-166 | with the wheel straight, turning radius 5 and a heading error of at least 5, the wheel ends at exactly 5 |
| Cars.YawIntegration | src/scenario.rs:177-180 | after `Step`, the new heading is the remainder of the old heading plus the yaw of the old speed and the new wheel angle, and that yaw is speed·wheel/360 |
| Cars.RestingCarKeepsHeading | src/scenario.rs:177-180 | after `Step`, a car at rest keeps a heading that is within one turn |
| Cars.StraightAhead | src/scenario.rs:177-180 | when the wheel ends straight, a heading within a turn is kept |
| Cars.SpeedTowardTarget | src/scenario.rs:186-194 | given √acceleration > 0: below the waypoint's speed the speed rises if it is below the cap and stays at 80 if it is not; at or above the waypoint's speed it strictly falls |
| Cars.Motion | src/scenario.rs:182-184 | the car moves `pixels_per_tick` of its old speed along its new heading, so `behind` that distance from the new state is the old location |
| Cars.MotionDistance | src/scenario.rs:182-184 | given sin² + cos² = 1, the squared distance moved is `pixels_per_tick`² of the old speed |
| Cars.Car.constructor | src/scenario.rs:91-119 | a new car is at rest with heading and wheel angle 0 and turning radius 5; its destination is at speed 80 and it has its driver; location, destination and acceleration come from the draws |
| Cars.Car.ShellCopy | src/scenario.rs:121-134 | the shell copy of a car is the shell of its state |
| Cars.Car.Tick | src/scenario.rs:147-197 | updating the fields in place gives exactly `Step` of the old state |
| Cars.Car.ArriveIfClose | src/scenario.rs:149-158 | only the destination changes, to the waypoint after the arrival test |
| Cars.Car.Steer | src/scenario.rs:160-175 | only the wheel angle changes, to the clamped, rate-limited angle toward the target |
| Cars.Car.Turn | src/scenario.rs:177-180 | only the heading changes, by the yaw and the remainder |
| Cars.Car.Move | src/scenario.rs:182-184 | only the location changes, advanced along the new heading |
| Cars.Car.Accelerate | src/scenario.rs:186-194 | only the speed changes, to the regulated speed |
| Scenarios.ShellsOf | src/scenario.rs:263 | collecting the shell copies of the cars gives the snapshot of their states |
| Scenarios.Snapshot | src/scenario.rs:263 | the snapshot has one shell per car, in order |
| Scenarios.Substep | src/scenario.rs:263-267 | a substep keeps the number of cars and every car's driver |
| Scenarios.SubstepAt | src/scenario.rs:263-267 | car i after a substep is `Step` of car i before it, against the snapshot taken before the substep |
| Scenarios.Ticked | src/scenario.rs:262-268 | any number of substeps keeps the number of cars and their drivers |
| Scenarios.TickBounds | src/scenario.rs:261-269 | after a tick every car has its wheel in [-30, 30], its heading in (-360, 360) and its speed ≤ 80 |
| Scenarios.OwnEntryNeverQualifies | src/scenario.rs:43 | a car's own snapshot entry never qualifies as its leader |
| Scenarios.LoneCar | src/scenario.rs:261-269 | a lone car that arrives always takes the random fallback at speed 65, and otherwise keeps its destination |
| Scenarios.NatToString | src/scenario.rs:256 | the index is formatted as a non-empty string of decimal digits |
| Scenarios.NatToStringRoundTrip | src/scenario.rs:256 | the formatted index reads back as the index |
| Scenarios.NewCar | src/scenario.rs:253-257 | the car `with_cars` builds has a driver and is the driver-less shell with that driver; its name starts with "{name} "; from valid draws its location and destination lie in the arena and its acceleration in [1, 5) |
| Scenarios.Fleet | src/scenario.rs:253-257 | one car per draw, each with a driver |
| Scenarios.FleetAt | src/scenario.rs:253-257 | car i of the fleet is built from draw i, with the name "{name} {i}" |
| Scenarios.FleetCar | src/scenario.rs:253-257 | every fleet car has only a red channel and the drawn values, and is at rest with the `Car::new` constants |
| Scenarios.FleetNamesDistinct | src/scenario.rs:256 | no two cars of one fleet share a name |
| Scenarios.Scenario.constructor | src/scenario.rs:246-250 | a new scenario has no cars |
| Scenarios.Scenario.Push | src/scenario.rs:256 | pushing a built car not yet present appends it and keeps the scenario valid |
| Scenarios.Scenario.AddCar | src/scenario.rs:254-256 | one fresh car is appended, built from the draw; the existing cars are kept |
| Scenarios.Scenario.WithCars | src/scenario.rs:252-259 | n fresh cars are appended after the existing ones (none when n ≤ 0), and their states are the fleet built from the draws |
| Scenarios.Scenario.TickOne | src/scenario.rs:265-266 | car i becomes its substep result; every other car is unchanged |
| Scenarios.Scenario.RunSubstep | src/scenario.rs:263-267 | the car list is kept, and the car states become `Substep` of the old states |
| Scenarios.Scenario.Tick | src/scenario.rs:261-269 | the car list is kept, and the car states become 50 substeps (`Ticked`) of the old states |
| Scenarios.Scenario.Shuffle | src/scenario.rs:271-273 | the car list is permuted: the same cars, each with an unchanged state |
| Scenarios.Scenario.Swap | src/scenario.rs:271-273 | one exchange of two positions of the car list |

## Left out

- The `Drawable` implementations for `Car` and `Scenario`: they only render.
  All of `src/main.rs` (window, events, zoom, frame loop) is left out too;
  `main.rs` is not part of this model.
- `f32` arithmetic: reals replace floats, so rounding, NaN and infinities are
  not modelled. The code relies on two infinities. The fold in
  `next_destination` starts from `f32::INFINITY`, which the model writes as
  `None`: every finite score beats it. The divisor `360 / wheel_angle` is
  infinite when the wheel angle is 0, and there the yaw is 0 as in the code.
- `sin`, `cos`, `atan2` and `sqrt` are uninterpreted. Only the facts named in
  `Geometry` are used. Each is required by the lemma that needs it, except
  the atan2 range, which is the premise of a clause of `Cars.TargetHeading`'s
  contract.
- `thread_rng()`: every random draw is a parameter. The draws are constrained
  to the ranges the code asks for (points in [0, 1000)², acceleration in
  [1, 5)), not to any distribution.
- Scenarios.Scenario.Shuffle: draws its swaps as parameters and follows the
  rand crate's Fisher–Yates pass; it promises a permutation, not uniformity.
- The green and blue differences the driver computes: they are never used
  (only red scores). The scoring by squared distance is commented out in the
  code.
- `with_cars` takes `n` as an `i64`; the model takes an unbounded integer.
  It updates the scenario in place, rather than consuming it and returning
  it as the builder does.
- Panics: `tick` on a shell that has arrived panics. The model makes
  `Car.Tick` require that this cannot happen (`CanTick`), and every car a
  scenario builds has a driver.
- The discarded `behind(30.)` call in `Scenario::tick` has no effect. It is
  computed and dropped.
- The driver's `&mut self` is not used: `DriveHomeDriver` has no state.
