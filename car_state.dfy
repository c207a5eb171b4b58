/**
 * The value side of a car: its waypoint, its colour, its driver and the
 * record of its fields that a shell copy holds, with the geometry helpers
 * `behind` and `pixels_per_tick`.
 */
module CarModel {
  import opened Numerics
  import opened Geometry

  datatype Option<T> = None | Some(value: T)

  /**
   * `Waypoint`: a target point and the speed to approach it at; the speed
   * is also the radius within which the point counts as reached.
   */
  datatype Waypoint = Waypoint(location: Vec2, speed: real)

  /** `Waypoint::new_2f`, a waypoint from its two coordinates. */
  function Waypoint2f(x: real, y: real, speed: real): Waypoint
  {
    Waypoint(Vec2(x, y), speed)
  }

  /** sfml's `Color`; only its red channel influences the simulation. */
  datatype Color = Color(red: u8, green: u8, blue: u8)

  /** The drivers a car may carry; `DriveHomeDriver` is the only one. */
  datatype Driver = DriveHome

  /** All fields of a `Car`, as a value: what `shell_copy` produces. */
  datatype CarState = CarState(
    location: Vec2,
    destination: Waypoint,
    wheelAngle: real,
    heading: real,
    speed: real,
    name: string,
    turningRadius: real,
    acceleration: real,
    color: Color,
    driver: Option<Driver>)
  {
    /** `shell_copy`: the same car without a driver. */
    function Shell(): (r: CarState)
      ensures r.driver == None
      ensures r.(driver := driver) == this
    {
      this.(driver := None)
    }
  }

  /**
   * `pixels_per_tick`: the distance in pixels a car at `speed` km/h covers
   * in one 17 ms substep, at 10 pixels per metre.
   */
  function PixelsPerTick(speed: real): (r: real)
    ensures r == 0.0 <==> speed == 0.0
    ensures speed > 0.0 ==> r > 0.0
    ensures speed < 0.0 ==> r < 0.0
    ensures speed <= 80.0 ==> r <= 34.0 / 9.0
  {
    var pixelsPerMeter := 10.0;
    var millisPerTick := 17.0;
    var secondsPerHour := 60.0 * 60.0;
    speed * pixelsPerMeter * millisPerTick / secondsPerHour
  }

  /** `behind`: the point `dist` back from the car, against its direction of travel. */
  function Behind(c: CarState, dist: real, m: Math): (p: Vec2)
    ensures p == Sub(c.location, Scale(dist, Forward(m, c.heading)))
    ensures dist == 0.0 ==> p == c.location
  {
    var th := c.heading / 180.0 * Pi;
    var (x, y) := (-m.sin(th), m.cos(th));
    Vec2(c.location.x + x * -dist, c.location.y + y * -dist)
  }

  /**
   * With heading 0 a car faces +y (sfml's y axis points down the screen),
   * so the point 20 behind a car at the origin is (0, -20).
   */
  lemma BehindAtOrigin(c: CarState, m: Math)
    requires TrigAtZero(m)
    requires c.location == Vec2(0.0, 0.0) && c.heading == 0.0
    ensures Behind(c, 20.0, m) == Vec2(0.0, -20.0)
  {
    assert Radians(0.0) == 0.0;
  }
}
