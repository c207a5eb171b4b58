/**
 * Plane geometry of the simulation: sfml's `Vector2f`, degrees and the
 * transcendental functions of `f32`, which the model leaves uninterpreted.
 */
module Geometry {
  /** sfml's `Vector2f`: a point or a displacement on the plane. */
  datatype Vec2 = Vec2(x: real, y: real)

  function Add(a: Vec2, b: Vec2): Vec2 { Vec2(a.x + b.x, a.y + b.y) }

  function Sub(a: Vec2, b: Vec2): Vec2 { Vec2(a.x - b.x, a.y - b.y) }

  function Scale(k: real, a: Vec2): Vec2 { Vec2(k * a.x, k * a.y) }

  function NormSquared(a: Vec2): real { a.x * a.x + a.y * a.y }

  /** A square is positive unless its root is zero; a squared norm is never negative. */
  lemma SquaresNonNegative(v: real, a: Vec2)
    ensures v != 0.0 ==> v * v > 0.0
    ensures NormSquared(a) >= 0.0
  {
    if v < 0.0 { assert v * v == (-v) * (-v); }
    if a.x < 0.0 { assert a.x * a.x == (-a.x) * (-a.x); }
    if a.y < 0.0 { assert a.y * a.y == (-a.y) * (-a.y); }
  }

  /** `f32::consts::PI`, to the precision an `f32` holds it. */
  const Pi: real := 3.1415927

  /**
   * `f32::sin`, `f32::cos`, `f32::atan2` and `f32::sqrt` as arbitrary
   * functions; `atan2(y, x)` is Rust's `y.atan2(x)`.  Whatever a proof needs
   * of them is stated as one of the predicates below and required by it.
   */
  datatype Math = Math(sin: real -> real, cos: real -> real, atan2: (real, real) -> real, sqrt: real -> real)

  /** The square root of a positive number is positive. */
  ghost predicate SqrtPositive(m: Math)
  {
    forall a: real :: a > 0.0 ==> m.sqrt(a) > 0.0
  }

  /** sin² + cos² = 1. */
  ghost predicate UnitCircle(m: Math)
  {
    forall t: real :: m.sin(t) * m.sin(t) + m.cos(t) * m.cos(t) == 1.0
  }

  /** atan2 returns an angle within half a turn either way. */
  ghost predicate Atan2Range(m: Math)
  {
    forall y: real, x: real :: -Pi <= m.atan2(y, x) <= Pi
  }

  /** sin 0 = 0 and cos 0 = 1. */
  predicate TrigAtZero(m: Math)
  {
    m.sin(0.0) == 0.0 && m.cos(0.0) == 1.0
  }

  /** Degrees to radians, computed as `Car::tick` and `Car::behind` do: `(deg / 180) * PI`. */
  function Radians(degrees: real): real { degrees / 180.0 * Pi }

  /**
   * The direction of travel for a heading in degrees: the unit vector
   * (0, 1) turned by the heading, that is (-sin θ, cos θ).
   */
  function Forward(m: Math, heading: real): Vec2
  {
    Vec2(-m.sin(Radians(heading)), m.cos(Radians(heading)))
  }

  /** The square [0, 1000) × [0, 1000) that `gen_range(0., 1000.)` draws each coordinate from. */
  predicate InArena(p: Vec2)
  {
    0.0 <= p.x < 1000.0 && 0.0 <= p.y < 1000.0
  }
}
