/** Constants and per-vehicle parameters shared by the motor mixer, the state
    integrator and the dynamics engine. */
module Physics {

  /** Standard gravity in m/s^2, as fixed in the engine. */
  const G: real := 9.80665

  /** The engine's five-digit approximation of pi. */
  const Pi: real := 3.14159

  /** The constants and mixing rules a concrete vehicle supplies.
      `u2`, `u3` and `u4` take the buffer of SQUARED motor speeds, `omega` the
      buffer of raw speeds (rad/s); each vehicle defines them by its geometry,
      so here they are arbitrary functions of the buffer contents. */
  datatype Vehicle = Vehicle(
    b: real,          // thrust coefficient
    d: real,          // drag (torque) coefficient
    m: real,          // mass
    l: real,          // arm length
    Ix: real,         // principal moments of inertia
    Iy: real,
    Iz: real,
    Jr: real,         // rotor inertia
    maxrpm: nat,      // unsigned in the engine
    u2: seq<real> -> real,
    u3: seq<real> -> real,
    u4: seq<real> -> real,
    omega: seq<real> -> real)

  /** The values the state update divides by are non-zero. */
  predicate NonZeroDivisors(v: Vehicle)
  {
    v.m != 0.0 && v.Ix != 0.0 && v.Iy != 0.0 && v.Iz != 0.0
  }

  /** The math library's cosine and sine, left uninterpreted: the model makes
      no claim about their values. */
  datatype Trig = Trig(cos: real -> real, sin: real -> real)

  /** The generalized forces of Equation 6: total thrust, roll, pitch and yaw
      moments, and the net rotor speed used for gyroscopic coupling. */
  datatype Forces = Forces(u1: real, u2: real, u3: real, u4: real, omega: real)
}
