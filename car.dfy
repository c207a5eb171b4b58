/**
 * `Car::tick`: one substep of a car, as a pure specification (`Step`,
 * built from one function per stage of the update) and as the class `Car`,
 * whose `Tick` updates the fields in place and is proved to agree with it.
 */
module Cars {
  import opened Numerics
  import opened Geometry
  import opened CarModel
  import opened Drivers

  /** The wheel is clamped to ±30 degrees. */
  const MaxWheelAngle: real := 30.0

  /** The speed is capped at 80 km/h. */
  const MaxSpeed: real := 80.0

  /** The arrival test: the car is closer to its waypoint than the waypoint's speed. */
  predicate Arrived(s: CarState)
  {
    NormSquared(Sub(s.location, s.destination.location)) < s.destination.speed * s.destination.speed
  }

  /** A waypoint of speed 0 is never reached: no squared distance is below 0. */
  lemma StoppedWaypointUnreached(s: CarState)
    requires s.destination.speed == 0.0
    ensures !Arrived(s)
  {
    SquaresNonNegative(s.destination.speed, Sub(s.location, s.destination.location));
  }

  /** What the update demands: a shell (a car without a driver) may never reach the arrival branch, which panics. */
  predicate CanTick(s: CarState)
  {
    s.driver.Some? || !Arrived(s)
  }

  /** The waypoint after the arrival test: a new one from the driver, given the car's shell and the snapshot. */
  function Retarget(m: Math, s: CarState, scene: seq<CarState>, pick: Vec2): (w: Waypoint)
    requires CanTick(s) && InArena(pick)
    ensures !Arrived(s) ==> w == s.destination
    ensures Arrived(s) ==> s.driver.Some? && w.speed in {65.0, 80.0}
  {
    if Arrived(s) then NextDestination(s.driver.value, m, s.Shell(), scene, pick) else s.destination
  }

  /** The heading, in degrees, that points from `location` to `target`. */
  function TargetHeading(m: Math, location: Vec2, target: Vec2): (r: real)
    ensures Atan2Range(m) ==> -180.0 <= r <= 180.0
  {
    var delta := Sub(location, target);
    m.atan2(delta.x, -delta.y) / Pi * 180.0
  }

  /**
   * `heading_delta`: the target heading less heading and wheel angle, shifted
   * by 180 around a float remainder.  Because the remainder keeps the
   * dividend's sign, the result lies in (-540, 180), not in (-180, 180].
   */
  function HeadingError(target: real, heading: real, wheelAngle: real): (r: real)
    ensures -540.0 < r < 180.0
  {
    Fmod360(target - heading - wheelAngle + 180.0) - 180.0
  }

  /**
   * The remainder does not bring the error into a half turn: a target at -170
   * from a heading of 30 gives -200 (steer left through 200 degrees) rather
   * than 160.
   */
  lemma HeadingErrorPastHalfTurn()
    ensures HeadingError(-170.0, 30.0, 0.0) == -200.0
  {
    Fmod360Small(-20.0);
  }

  /**
   * The change of wheel angle before clamping: toward the heading error, by
   * at most the turning radius.
   */
  function SteerChange(headingDelta: real, turningRadius: real): (r: real)
    ensures headingDelta > 0.0 && turningRadius > 0.0 ==> 0.0 < r <= turningRadius
    ensures headingDelta <= 0.0 && turningRadius >= 0.0 ==> -turningRadius <= r <= 0.0
    ensures r == headingDelta || r == turningRadius || r == -turningRadius
  {
    if headingDelta > 0.0 then Min(turningRadius, headingDelta) else Max(-turningRadius, headingDelta)
  }

  /** The wheel-angle clamp, to [-30, 30]. */
  function ClampWheel(w: real): (r: real)
    ensures -MaxWheelAngle <= r <= MaxWheelAngle
    ensures -MaxWheelAngle <= w <= MaxWheelAngle ==> r == w
    ensures w < -MaxWheelAngle ==> r == -MaxWheelAngle
    ensures w > MaxWheelAngle ==> r == MaxWheelAngle
  {
    if w < -MaxWheelAngle then -MaxWheelAngle
    else if w > MaxWheelAngle then MaxWheelAngle
    else w
  }

  /**
   * The yaw of one substep, `speed / (360 / wheel_angle)`; with a zero wheel
   * angle the float division gives infinity and the yaw is 0.
   */
  function AngularStep(speed: real, wheelAngle: real): (r: real)
    ensures r == speed * wheelAngle / 360.0
  {
    if wheelAngle == 0.0 then 0.0 else speed / (360.0 / wheelAngle)
  }

  /** The location advanced by `distance` pixels along `heading`, coordinate by coordinate. */
  function Advance(m: Math, location: Vec2, heading: real, distance: real): (p: Vec2)
    ensures p == Add(location, Scale(distance, Forward(m, heading)))
  {
    var th := heading / 180.0 * Pi;
    var p := Vec2(location.x + -m.sin(th) * distance, location.y + m.cos(th) * distance);
    assert th == Radians(heading);
    assert -m.sin(th) * distance == distance * Forward(m, heading).x;
    assert m.cos(th) * distance == distance * Forward(m, heading).y;
    assert Scale(distance, Forward(m, heading)) == Vec2(distance * Forward(m, heading).x, distance * Forward(m, heading).y);
    p
  }

  /** Speed regulation: up by √acceleration below the target speed, down otherwise, then capped at 80. */
  function Regulate(m: Math, speed: real, target: real, acceleration: real): (r: real)
    ensures r <= MaxSpeed
    ensures speed < target ==> r == Min(MaxSpeed, speed + m.sqrt(acceleration))
    ensures speed >= target ==> r == Min(MaxSpeed, speed - m.sqrt(acceleration))
  {
    var v := if speed < target then speed + m.sqrt(acceleration) else speed - m.sqrt(acceleration);
    if v > MaxSpeed then MaxSpeed else v
  }

  /**
   * One substep of a car against the snapshot `scene`; `pick` is the random
   * point its driver falls back to.  Only the destination, the wheel angle,
   * the heading, the location and the speed change.
   */
  function Step(m: Math, s: CarState, scene: seq<CarState>, pick: Vec2): (r: CarState)
    requires CanTick(s) && InArena(pick)
    ensures -MaxWheelAngle <= r.wheelAngle <= MaxWheelAngle
    ensures -360.0 < r.heading < 360.0
    ensures r.speed <= MaxSpeed
    ensures r.destination == s.destination || Arrived(s)
    ensures r.driver == s.driver
    ensures r.(destination := s.destination, wheelAngle := s.wheelAngle, heading := s.heading,
               location := s.location, speed := s.speed) == s
  {
    var dest := Retarget(m, s, scene, pick);
    var headingDelta := HeadingError(TargetHeading(m, s.location, dest.location), s.heading, s.wheelAngle);
    var wheel := ClampWheel(s.wheelAngle + SteerChange(headingDelta, s.turningRadius));
    var heading := Fmod360(s.heading + AngularStep(s.speed, wheel));
    var location := Advance(m, s.location, heading, PixelsPerTick(s.speed));
    var speed := Regulate(m, s.speed, dest.speed, s.acceleration);
    s.(destination := dest, wheelAngle := wheel, heading := heading, location := location, speed := speed)
  }

  /**
   * The arrival test: the destination is left alone unless the car has
   * arrived, and then it is what the driver chooses from the car's shell and
   * the snapshot, at speed 65 or 80.
   */
  lemma ArrivalTest(m: Math, s: CarState, scene: seq<CarState>, pick: Vec2)
    requires CanTick(s) && InArena(pick)
    ensures !Arrived(s) ==> Step(m, s, scene, pick).destination == s.destination
    ensures Arrived(s) ==>
              s.driver.Some? &&
              Step(m, s, scene, pick).destination == NextDestination(s.driver.value, m, s.Shell(), scene, pick)
    ensures Arrived(s) ==> Step(m, s, scene, pick).destination.speed in {65.0, 80.0}
  {
  }

  /**
   * Steering is rate limited: from an angle within the clamp, the wheel moves
   * by at most the turning radius, in the direction of the heading error.
   */
  lemma SteeringBound(m: Math, s: CarState, scene: seq<CarState>, pick: Vec2)
    requires CanTick(s) && InArena(pick)
    requires s.turningRadius >= 0.0 && -MaxWheelAngle <= s.wheelAngle <= MaxWheelAngle
    ensures var headingDelta := HeadingError(TargetHeading(m, s.location, Retarget(m, s, scene, pick).location),
                                             s.heading, s.wheelAngle);
            var w := Step(m, s, scene, pick).wheelAngle;
            (headingDelta > 0.0 ==> s.wheelAngle <= w <= s.wheelAngle + s.turningRadius) &&
            (headingDelta <= 0.0 ==> s.wheelAngle - s.turningRadius <= w <= s.wheelAngle)
  {
  }

  /**
   * The slew limit from rest: with the wheel straight and a heading error of
   * at least the turning radius (5 for every car), one substep turns the
   * wheel by exactly the turning radius.
   */
  lemma SlewFromRest(m: Math, s: CarState, scene: seq<CarState>, pick: Vec2)
    requires CanTick(s) && InArena(pick)
    requires s.wheelAngle == 0.0 && s.turningRadius == 5.0
    requires HeadingError(TargetHeading(m, s.location, Retarget(m, s, scene, pick).location), s.heading, 0.0) >= 5.0
    ensures Step(m, s, scene, pick).wheelAngle == 5.0
  {
  }

  /**
   * Yaw integration: the new heading is the old one advanced by the yaw of
   * the OLD speed and the NEW wheel angle (speed·wheel/360), wrapped by the
   * float remainder.
   */
  lemma YawIntegration(m: Math, s: CarState, scene: seq<CarState>, pick: Vec2)
    requires CanTick(s) && InArena(pick)
    ensures var r := Step(m, s, scene, pick);
            r.heading == Fmod360(s.heading + AngularStep(s.speed, r.wheelAngle)) &&
            AngularStep(s.speed, r.wheelAngle) == s.speed * r.wheelAngle / 360.0
  {
  }

  /** A car at rest does not turn: its heading, if within one turn, is kept. */
  lemma RestingCarKeepsHeading(m: Math, s: CarState, scene: seq<CarState>, pick: Vec2)
    requires CanTick(s) && InArena(pick)
    requires s.speed == 0.0 && -360.0 < s.heading < 360.0
    ensures Step(m, s, scene, pick).heading == s.heading
  {
    var r := Step(m, s, scene, pick);
    assert AngularStep(s.speed, r.wheelAngle) == 0.0;
    Fmod360Small(s.heading);
  }

  /** With the wheel straight after steering, a heading within a turn either way is kept. */
  lemma StraightAhead(m: Math, s: CarState, scene: seq<CarState>, pick: Vec2)
    requires CanTick(s) && InArena(pick)
    requires -360.0 < s.heading < 360.0
    requires Step(m, s, scene, pick).wheelAngle == 0.0
    ensures Step(m, s, scene, pick).heading == s.heading
  {
    Fmod360Small(s.heading);
  }

  /**
   * Speed regulation moves the speed toward the waypoint's speed: up when
   * below it (unless already at the cap) and strictly down otherwise.
   */
  lemma SpeedTowardTarget(m: Math, s: CarState, scene: seq<CarState>, pick: Vec2)
    requires CanTick(s) && InArena(pick)
    requires SqrtPositive(m) && s.acceleration > 0.0
    ensures var target := Retarget(m, s, scene, pick).speed;
            var v := Step(m, s, scene, pick).speed;
            (s.speed < target && s.speed < MaxSpeed ==> s.speed < v) &&
            (s.speed < target && s.speed >= MaxSpeed ==> v == MaxSpeed) &&
            (s.speed >= target ==> v < s.speed)
  {
    assert m.sqrt(s.acceleration) > 0.0;
  }

  /**
   * Motion: the car moves `pixels_per_tick` of its old speed along the
   * direction of its new heading, so stepping back that far from the new
   * position returns to the old one.
   */
  lemma Motion(m: Math, s: CarState, scene: seq<CarState>, pick: Vec2)
    requires CanTick(s) && InArena(pick)
    ensures var r := Step(m, s, scene, pick);
            r.location == Add(s.location, Scale(PixelsPerTick(s.speed), Forward(m, r.heading))) &&
            Behind(r, PixelsPerTick(s.speed), m) == s.location
  {
  }

  /** With sin² + cos² = 1 the car moves exactly `pixels_per_tick` of its old speed. */
  lemma MotionDistance(m: Math, s: CarState, scene: seq<CarState>, pick: Vec2)
    requires CanTick(s) && InArena(pick) && UnitCircle(m)
    ensures var r := Step(m, s, scene, pick);
            NormSquared(Sub(r.location, s.location)) == PixelsPerTick(s.speed) * PixelsPerTick(s.speed)
  {
    var r := Step(m, s, scene, pick);
    var d := PixelsPerTick(s.speed);
    var th := Radians(r.heading);
    assert m.sin(th) * m.sin(th) + m.cos(th) * m.cos(th) == 1.0;
    assert Sub(r.location, s.location) == Scale(d, Forward(m, r.heading));
    assert NormSquared(Scale(d, Forward(m, r.heading))) == d * d * (m.sin(th) * m.sin(th) + m.cos(th) * m.cos(th));
  }

  /** A `Car`: the fields `Car::tick` updates in place, with the others fixed at construction. */
  class Car {
    var location: Vec2
    var destination: Waypoint
    var wheelAngle: real
    var heading: real
    var speed: real
    const name: string
    const turningRadius: real
    const acceleration: real
    const color: Color
    const driver: Option<Driver>

    /** The car's fields as a value. */
    function State(): CarState
      reads this
    {
      CarState(location, destination, wheelAngle, heading, speed, name, turningRadius, acceleration, color, driver)
    }

    /**
     * `Car::new`: at rest, heading 0, turning radius 5, driving toward a
     * waypoint at speed 80.  The random location, destination and
     * acceleration are parameters drawn from the ranges `Car::new` uses.
     */
    constructor (color: Color, name: string, driver: Driver, location: Vec2, destination: Vec2, acceleration: real)
      requires InArena(location) && InArena(destination) && 1.0 <= acceleration < 5.0
      ensures State() == CarState(location, Waypoint(destination, 80.0), 0.0, 0.0, 0.0, name, 5.0,
                                  acceleration, color, Some(driver))
    {
      this.location := location;
      this.destination := Waypoint(destination, 80.0);
      this.turningRadius := 5.0;
      this.acceleration := acceleration;
      this.wheelAngle := 0.0;
      this.heading := 0.0;
      this.speed := 0.0;
      this.name := name;
      this.color := color;
      this.driver := Some(driver);
    }

    /** `shell_copy`, field by field. */
    function ShellCopy(): (r: CarState)
      reads this
      ensures r == State().Shell()
    {
      CarState(location, destination, wheelAngle, heading, speed, name, turningRadius, acceleration, color, None)
    }

    /**
     * `Car::tick`: the in-place substep against the snapshot `scene`.  Its
     * body, a loop that runs once, is the five stages below in order.
     */
    method Tick(m: Math, scene: seq<CarState>, pick: Vec2)
      requires CanTick(State()) && InArena(pick)
      modifies this
      ensures State() == Step(m, old(State()), scene, pick)
    {
      ArriveIfClose(m, scene, pick);
      Steer(m);
      Turn();
      Move(m);
      Accelerate(m);
    }

    /** Stage 1: the arrival test; a shell reaching it is a panic the precondition rules out. */
    method ArriveIfClose(m: Math, scene: seq<CarState>, pick: Vec2)
      requires CanTick(State()) && InArena(pick)
      modifies this
      ensures State() == old(State()).(destination := Retarget(m, old(State()), scene, pick))
    {
      var dist := Sub(location, destination.location);
      if dist.x * dist.x + dist.y * dist.y < destination.speed * destination.speed {
        var shell := ShellCopy();
        match driver
        case Some(d) =>
          destination := NextDestination(d, m, shell, scene, pick);
        case None =>
          assert false;
      }
    }

    /** Stage 2: steer toward the destination, by at most the turning radius, then clamp to ±30. */
    method Steer(m: Math)
      modifies this
      ensures State() == old(State()).(wheelAngle := ClampWheel(old(wheelAngle) + SteerChange(
                HeadingError(TargetHeading(m, location, destination.location), heading, old(wheelAngle)),
                turningRadius)))
    {
      var delta := Sub(location, destination.location);
      var targetHeading := m.atan2(delta.x, -delta.y) / Pi * 180.0;
      var headingDelta := Fmod360(targetHeading - heading - wheelAngle + 180.0) - 180.0;

      if headingDelta > 0.0 {
        wheelAngle := wheelAngle + Min(turningRadius, headingDelta);
      } else {
        wheelAngle := wheelAngle + Max(-turningRadius, headingDelta);
      }

      if wheelAngle < -30.0 {
        wheelAngle := -30.0;
      } else if wheelAngle > 30.0 {
        wheelAngle := 30.0;
      }
    }

    /** Stage 3: integrate the yaw and wrap the heading with the float remainder. */
    method Turn()
      modifies this
      ensures State() == old(State()).(heading := Fmod360(old(heading) + AngularStep(speed, wheelAngle)))
    {
      var yaw := AngularStep(speed, wheelAngle);
      heading := heading + yaw;
      heading := Fmod360(heading);
    }

    /** Stage 4: advance `pixels_per_tick` along the heading, `y` first and then `x`. */
    method Move(m: Math)
      modifies this
      ensures State() == old(State()).(location := Advance(m, old(location), heading, PixelsPerTick(speed)))
    {
      var th := heading / 180.0 * Pi;
      location := location.(y := location.y + m.cos(th) * PixelsPerTick(speed));
      location := location.(x := location.x + -m.sin(th) * PixelsPerTick(speed));
    }

    /** Stage 5: accelerate or brake by √acceleration toward the waypoint's speed, capped at 80. */
    method Accelerate(m: Math)
      modifies this
      ensures State() == old(State()).(speed := Regulate(m, old(speed), destination.speed, acceleration))
    {
      if speed < destination.speed {
        speed := speed + m.sqrt(acceleration);
      } else {
        speed := speed - m.sqrt(acceleration);
      }

      if speed > 80.0 {
        speed := 80.0;
      }
    }
  }
}
